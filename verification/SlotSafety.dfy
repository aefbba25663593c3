/** Core slots, pins and counters of the intent predictor, over every run. */
module SlotSafety {
  import opened Base
  import opened Configuration
  import opened NpuCaches
  import opened Prefetching

  // ---- Slots and pins ----

  function SlotKey(s: CoreSlot): CacheKey {
    CK(s.npc, s.lod)
  }

  predicate OneSlotEach(slots: seq<CoreSlot>) {
    forall i, j :: 0 <= i < j < |slots| && slots[i].occupied && slots[j].occupied ==> slots[i].npc != slots[j].npc
  }

  predicate SlotPinned(m: Entries, s: CoreSlot) {
    s.occupied ==> SlotKey(s) in m && m[SlotKey(s)].pins >= 1
  }

  /** Each NPC holds at most one slot, and the weights of an occupied slot are resident and pinned. */
  predicate Safe(m: Entries, slots: seq<CoreSlot>) {
    OneSlotEach(slots) && forall i :: 0 <= i < |slots| ==> SlotPinned(m, slots[i])
  }

  function Uses(s: CoreSlot, k: CacheKey): nat {
    if s.occupied && SlotKey(s) == k then 1 else 0
  }

  /** Occupied slots that use `k`. */
  function SlotCount(slots: seq<CoreSlot>, k: CacheKey): nat {
    if slots == [] then 0 else SlotCount(slots[..|slots| - 1], k) + Uses(slots[|slots| - 1], k)
  }

  /** Pins are exactly the occupied slots. */
  ghost predicate Exact(m: Entries, slots: seq<CoreSlot>) {
    forall k :: k in m ==> m[k].pins == SlotCount(slots, k)
  }

  lemma {:induction false} CountUpdate(slots: seq<CoreSlot>, i: nat, s: CoreSlot, k: CacheKey)
    requires i < |slots|
    ensures SlotCount(slots[i := s], k) == SlotCount(slots, k) - Uses(slots[i], k) + Uses(s, k)
  {
    var init := slots[..|slots| - 1];
    if i == |slots| - 1 {
      assert slots[i := s][..|slots| - 1] == init;
    } else {
      CountUpdate(init, i, s, k);
      assert slots[i := s][..|slots| - 1] == init[i := s];
    }
  }

  lemma {:induction false} CountZero(slots: seq<CoreSlot>, k: CacheKey)
    requires forall i :: 0 <= i < |slots| && slots[i].occupied ==> SlotKey(slots[i]) != k
    ensures SlotCount(slots, k) == 0
  {
    if slots != [] {
      CountZero(slots[..|slots| - 1], k);
    }
  }

  lemma {:induction false} CountAtMostOne(slots: seq<CoreSlot>, k: CacheKey)
    requires OneSlotEach(slots)
    ensures SlotCount(slots, k) <= 1
  {
    if slots != [] {
      var last := slots[|slots| - 1];
      CountAtMostOne(slots[..|slots| - 1], k);
      if last.occupied && SlotKey(last) == k {
        CountZero(slots[..|slots| - 1], k);
      }
    }
  }

  lemma {:induction false} SlotOfFacts(slots: seq<CoreSlot>, npc: nat, i: nat)
    requires i <= |slots|
    ensures var r := SlotOf(slots, npc, i);
      && i <= r <= |slots|
      && (r < |slots| ==> slots[r].occupied && slots[r].npc == npc)
      && (r == |slots| ==> forall j :: i <= j < |slots| && slots[j].occupied ==> slots[j].npc != npc)
    decreases |slots| - i
  {
    if i < |slots| && !(slots[i].occupied && slots[i].npc == npc) {
      SlotOfFacts(slots, npc, i + 1);
    }
  }

  lemma {:induction false} FreeSlotFacts(slots: seq<CoreSlot>, i: nat)
    requires i <= |slots|
    ensures var r := FreeSlot(slots, i);
      && i <= r <= |slots| && (r < |slots| ==> !slots[r].occupied)
      && (r == |slots| ==> forall j :: i <= j < |slots| ==> slots[j].occupied)
    decreases |slots| - i
  {
    if i < |slots| && slots[i].occupied {
      FreeSlotFacts(slots, i + 1);
    }
  }

  // ---- Releasing ----

  lemma ReleaseOne(m: Entries, slots: seq<CoreSlot>, i: nat)
    requires Safe(m, slots) && i < |slots| && slots[i].occupied
    ensures var m', slots' := PinnedLess(m, SlotKey(slots[i])), slots[i := slots[i].(occupied := false)];
      Safe(m', slots') && (Exact(m, slots) ==> Exact(m', slots'))
  {
    var k := SlotKey(slots[i]);
    var m', slots' := PinnedLess(m, k), slots[i := slots[i].(occupied := false)];
    assert SlotPinned(m, slots[i]);
    forall j | 0 <= j < |slots'| ensures SlotPinned(m', slots'[j]) {
      assert SlotPinned(m, slots[j]);
      if j != i && slots[j].occupied {
        assert slots[j].npc != slots[i].npc;
      }
    }
    if Exact(m, slots) {
      forall k' | k' in m' ensures m'[k'].pins == SlotCount(slots', k') {
        CountUpdate(slots, i, slots'[i], k');
      }
    }
  }

  /** The slots that have expired at `t`, and no others, are freed; the rest of each slot is as it was. */
  predicate Thinned(slots: seq<CoreSlot>, slots': seq<CoreSlot>, t: int, i: nat) {
    && |slots'| == |slots|
    && (forall j :: 0 <= j < |slots| ==> slots'[j] == slots[j] || slots'[j] == slots[j].(occupied := false))
    && (forall j :: i <= j < |slots| ==> (slots'[j].occupied <==> slots[j].occupied && t < slots[j].endsAt))
  }

  lemma {:induction false} ReleaseKeeps(m: Entries, slots: seq<CoreSlot>, t: int, i: nat)
    requires Safe(m, slots) && i <= |slots|
    ensures var (m', slots') := ReleaseFrom(m, slots, t, i);
      && Safe(m', slots') && (Exact(m, slots) ==> Exact(m', slots')) && Thinned(slots, slots', t, i)
      && (forall j :: 0 <= j < i ==> slots'[j] == slots[j])
      && m'.Keys == m.Keys
    decreases |slots| - i
  {
    if i < |slots| {
      if slots[i].occupied && t >= slots[i].endsAt {
        ReleaseOne(m, slots, i);
        ReleaseKeeps(PinnedLess(m, SlotKey(slots[i])), slots[i := slots[i].(occupied := false)], t, i + 1);
      } else {
        ReleaseKeeps(m, slots, t, i + 1);
      }
    }
  }

  // ---- Acquiring ----

  lemma TouchKeeps(m: Entries, slots: seq<CoreSlot>, k: CacheKey, now: Time, d: real)
    requires Safe(m, slots)
    ensures Safe(Touched(m, k, now, d), slots)
    ensures Exact(m, slots) <==> Exact(Touched(m, k, now, d), slots)
  {
    var m' := Touched(m, k, now, d);
    forall i | 0 <= i < |slots| ensures SlotPinned(m', slots[i]) {
      assert SlotPinned(m, slots[i]);
    }
    if Exact(m', slots) {
      forall j | j in m ensures m[j].pins == SlotCount(slots, j) {
        assert j in m';
      }
    }
  }

  lemma PinSafe(m: Entries, slots: seq<CoreSlot>, i: nat, s: CoreSlot)
    requires Safe(m, slots) && i < |slots| && s.occupied && SlotKey(s) in m
    requires forall j :: 0 <= j < |slots| && j != i && slots[j].occupied ==> slots[j].npc != s.npc
    ensures Safe(PinnedMore(m, SlotKey(s)), slots[i := s])
  {
    var m', slots' := PinnedMore(m, SlotKey(s)), slots[i := s];
    forall j | 0 <= j < |slots'| ensures SlotPinned(m', slots'[j]) {
      assert SlotPinned(m, slots[j]);
    }
  }

  /** Taking a slot keeps pins exact exactly when the slot was free. */
  lemma PinExactIff(m: Entries, slots: seq<CoreSlot>, i: nat, s: CoreSlot)
    requires Safe(m, slots) && Exact(m, slots) && i < |slots| && s.occupied && SlotKey(s) in m
    ensures Exact(PinnedMore(m, SlotKey(s)), slots[i := s]) <==> !slots[i].occupied
  {
    var m' := PinnedMore(m, SlotKey(s));
    if !slots[i].occupied {
      forall k | k in m' ensures m'[k].pins == SlotCount(slots[i := s], k) {
        CountUpdate(slots, i, s, k);
      }
    } else {
      var k := SlotKey(slots[i]);
      assert SlotPinned(m, slots[i]);
      CountUpdate(slots, i, s, k);
      assert k in m' && m'[k].pins != SlotCount(slots[i := s], k);
    }
  }

  /** Some level of `npc` at `lod` or coarser is resident. */
  predicate Usable(m: Entries, npc: nat, lod: int) {
    exists l :: lod <= l <= 2 && CK(npc, l) in m
  }

  /** The level used is the finest resident one that is not finer than asked for, if there is any. */
  lemma {:induction false} BestResidentFacts(m: Entries, npc: nat, lod: int)
    requires 0 <= lod
    ensures var r := BestResident(m, npc, lod);
      && (r < 0 <==> !Usable(m, npc, lod))
      && (r >= 0 ==> lod <= r <= 2 && CK(npc, r) in m && forall l :: lod <= l < r ==> CK(npc, l) !in m)
    decreases 3 - lod
  {
    if lod <= 2 && CK(npc, lod) !in m {
      BestResidentFacts(m, npc, lod + 1);
    }
  }

  predicate Full(slots: seq<CoreSlot>) {
    forall i :: 0 <= i < |slots| ==> slots[i].occupied
  }

  /** Slot `i`, which was free or the NPC's own, is taken for it; all other slots stay as they were. */
  predicate TakenAt(slots: seq<CoreSlot>, slots': seq<CoreSlot>, i: nat, npc: nat, lod: int, endsAt: int) {
    && |slots'| == |slots| && i < |slots|
    && (slots[i].occupied ==> slots[i].npc == npc)
    && slots'[i] == CoreSlot(true, npc, lod, if slots[i].occupied then Max(slots[i].endsAt, endsAt) else endsAt)
    && (forall j :: 0 <= j < |slots| && j != i ==> slots'[j] == slots[j])
  }

  /** A slot is refused exactly when the NPC holds none and every core is busy; otherwise exactly
      one slot is taken for it, and no earlier end is forgotten. */
  lemma AcquireSlotIff(slots: seq<CoreSlot>, npc: nat, lod: int, endsAt: int)
    ensures var r := AcquireSlot(slots, npc, lod, endsAt);
      && (r.None? <==> !HoldsSlot(slots, npc) && Full(slots))
      && (r.Some? ==> exists i :: TakenAt(slots, r.value, i, npc, lod, endsAt))
  {
    SlotOfFacts(slots, npc, 0);
    FreeSlotFacts(slots, 0);
    var r := AcquireSlot(slots, npc, lod, endsAt);
    var i := if HoldsSlot(slots, npc) then SlotOf(slots, npc, 0) else FreeSlot(slots, 0);
    if r.Some? {
      assert TakenAt(slots, r.value, i, npc, lod, endsAt);
    }
  }

  /** Which counters an interaction moves: a hit exactly when the desired level is resident, a miss and a
      degradation otherwise, one without weights exactly when nothing is usable, and a saturation exactly
      when something is usable but no slot can be had. */
  lemma HandleCounts(st: Intent, npc: nat, d: real, desired: int, endsAt: int, now: Time)
    requires 0 <= desired <= 2
    ensures var k, k' := st.kpi, HandleInteraction(st, npc, d, desired, endsAt, now).kpi;
      && k'.hits - k.hits == (if CK(npc, desired) in st.entries then 1 else 0)
      && k'.misses - k.misses == k'.degradations - k.degradations == (if CK(npc, desired) in st.entries then 0 else 1)
      && k'.noWeight - k.noWeight == (if Usable(st.entries, npc, desired) then 0 else 1)
      && k'.saturations - k.saturations ==
           (if Usable(st.entries, npc, desired) && !HoldsSlot(st.slots, npc) && Full(st.slots) then 1 else 0)
      && k'.evictions == k.evictions && k'.refusals == k.refusals
  {
    BestResidentFacts(st.entries, npc, desired);
    AcquireSlotIff(st.slots, npc, BestResident(st.entries, npc, desired), endsAt);
    if CK(npc, desired) in st.entries {
      assert Usable(st.entries, npc, desired);
    }
  }

  /** Serving an interaction keeps slots safe. Pins stay exact exactly when no weight is usable, every
      core is busy, or the NPC did not already hold a slot: a re-used slot leaks a pin. */
  lemma HandleKeeps(st: Intent, npc: nat, d: real, desired: int, endsAt: int, now: Time)
    requires Safe(st.entries, st.slots) && 0 <= desired
    ensures var st' := HandleInteraction(st, npc, d, desired, endsAt, now);
      && Safe(st'.entries, st'.slots) && st'.entries.Keys == st.entries.Keys
      && st'.inFlight == st.inFlight && st'.handled == st.handled
      && (Exact(st.entries, st.slots) ==>
            (Exact(st'.entries, st'.slots) <==>
               BestResident(st.entries, npc, desired) < 0 || !HoldsSlot(st.slots, npc)))
  {
    var actual := BestResident(st.entries, npc, desired);
    BestResidentFacts(st.entries, npc, desired);
    if actual >= 0 {
      var k := CK(npc, actual);
      var i := SlotOf(st.slots, npc, 0);
      SlotOfFacts(st.slots, npc, 0);
      FreeSlotFacts(st.slots, 0);
      var j := if i < |st.slots| then i else FreeSlot(st.slots, 0);
      if j < |st.slots| {
        var s := if i < |st.slots| then st.slots[i].(lod := actual, endsAt := Max(st.slots[i].endsAt, endsAt))
                 else CoreSlot(true, npc, actual, endsAt);
        assert AcquireSlot(st.slots, npc, actual, endsAt) == Some(st.slots[j := s]);
        PinSafe(st.entries, st.slots, j, s);
        TouchKeeps(PinnedMore(st.entries, k), st.slots[j := s], k, now, d);
        if Exact(st.entries, st.slots) {
          PinExactIff(st.entries, st.slots, j, s);
        }
      }
    }
  }

  // ---- Disjoint interaction windows ----

  predicate Disjoint(ixs: seq<Interaction>) {
    forall a, b :: 0 <= a < b < |ixs| && ixs[a].npc == ixs[b].npc ==>
      EndsAt(ixs[a]) <= ixs[b].atMs || EndsAt(ixs[b]) <= ixs[a].atMs
  }

  predicate Backs(ixs: seq<Interaction>, w: nat, s: CoreSlot, handled: set<nat>, t: int)
    requires w < |ixs|
  {
    ixs[w].npc == s.npc && ixs[w].atMs <= t && EndsAt(ixs[w]) == s.endsAt && Key(s.npc, ixs[w].atMs) in handled
  }

  /** Every occupied slot belongs to an interaction that has begun and was handled. */
  ghost predicate Backed(ixs: seq<Interaction>, slots: seq<CoreSlot>, handled: set<nat>, t: int) {
    forall i :: 0 <= i < |slots| && slots[i].occupied ==>
      exists w :: 0 <= w < |ixs| && Backs(ixs, w, slots[i], handled, t)
  }

  /** The slots in use have not expired at `t`. */
  predicate Current(slots: seq<CoreSlot>, t: int) {
    forall i :: 0 <= i < |slots| && slots[i].occupied ==> t < slots[i].endsAt
  }

  lemma {:induction false} ActiveFacts(ixs: seq<Interaction>, npc: nat, t: int) returns (w: nat)
    requires ActiveInteraction(ixs, npc, t).Some?
    ensures w < |ixs| && ixs[w] == ActiveInteraction(ixs, npc, t).value && ActiveAt(ixs[w], npc, t)
  {
    if ActiveAt(ixs[0], npc, t) {
      w := 0;
    } else {
      var v := ActiveFacts(ixs[1..], npc, t);
      w := v + 1;
    }
  }

  lemma OneWindow(ixs: seq<Interaction>, w: nat, f: nat, t: int)
    requires Disjoint(ixs) && w < |ixs| && f < |ixs|
    requires ixs[w].atMs <= t < EndsAt(ixs[w]) && ixs[f].atMs <= t < EndsAt(ixs[f])
    ensures ixs[w].npc == ixs[f].npc ==> w == f
  {
  }

  /** With disjoint windows, an NPC whose interaction is new holds no slot. */
  lemma NewInteractionHasNoSlot(ixs: seq<Interaction>, slots: seq<CoreSlot>, handled: set<nat>, npc: nat, t: int)
    requires Disjoint(ixs) && Backed(ixs, slots, handled, t) && Current(slots, t)
    requires var ix := ActiveInteraction(ixs, npc, t); ix.Some? && Key(npc, ix.value.atMs) !in handled
    ensures !HoldsSlot(slots, npc)
  {
    var f := ActiveFacts(ixs, npc, t);
    forall i | 0 <= i < |slots| && slots[i].occupied ensures slots[i].npc != npc {
      var w :| 0 <= w < |ixs| && Backs(ixs, w, slots[i], handled, t);
      OneWindow(ixs, w, f, t);
    }
    SlotOfFacts(slots, npc, 0);
  }

  // ---- One tick ----

  predicate KpiOk(st: Intent) {
    && st.kpi.hits + st.kpi.misses == |st.handled|
    && st.kpi.degradations == st.kpi.misses
    && st.kpi.noWeight <= st.kpi.degradations
  }

  /** What the predictor keeps within a tick at `t`. */
  ghost predicate MidTick(sc: Scene, st: Intent, t: int) {
    && Safe(st.entries, st.slots) && KpiOk(st)
    && (Disjoint(sc.interactions) ==>
          && Exact(st.entries, st.slots)
          && Backed(sc.interactions, st.slots, st.handled, t) && Current(st.slots, t))
  }

  lemma BackedAcquire(ixs: seq<Interaction>, slots: seq<CoreSlot>, handled: set<nat>, npc: nat, lod: int, t: int,
                      w: nat)
    requires Backed(ixs, slots, handled, t) && Current(slots, t) && !HoldsSlot(slots, npc)
    requires w < |ixs| && ActiveAt(ixs[w], npc, t)
    ensures var r := AcquireSlot(slots, npc, lod, EndsAt(ixs[w]));
      r.Some? ==> Backed(ixs, r.value, handled + {Key(npc, ixs[w].atMs)}, t) && Current(r.value, t)
  {
    SlotOfFacts(slots, npc, 0);
    FreeSlotFacts(slots, 0);
    var handled' := handled + {Key(npc, ixs[w].atMs)};
    var r := AcquireSlot(slots, npc, lod, EndsAt(ixs[w]));
    if r.Some? {
      var j := FreeSlot(slots, 0);
      forall i | 0 <= i < |r.value| && r.value[i].occupied
        ensures exists v :: 0 <= v < |ixs| && Backs(ixs, v, r.value[i], handled', t)
      {
        if i == j {
          assert Backs(ixs, w, r.value[i], handled', t);
        } else {
          var v :| 0 <= v < |ixs| && Backs(ixs, v, slots[i], handled, t);
          assert Backs(ixs, v, r.value[i], handled', t);
        }
      }
    }
  }

  lemma BackedMore(ixs: seq<Interaction>, slots: seq<CoreSlot>, handled: set<nat>, handled': set<nat>, t: int, t': int)
    requires Backed(ixs, slots, handled, t) && handled <= handled' && t <= t'
    ensures Backed(ixs, slots, handled', t')
  {
    forall i | 0 <= i < |slots| && slots[i].occupied
      ensures exists w :: 0 <= w < |ixs| && Backs(ixs, w, slots[i], handled', t')
    {
      var w :| 0 <= w < |ixs| && Backs(ixs, w, slots[i], handled, t);
      assert Backs(ixs, w, slots[i], handled', t');
    }
  }

  lemma HandleKpi(st: Intent, npc: nat, d: real, desired: int, endsAt: int, now: Time)
    ensures var k, k' := st.kpi, HandleInteraction(st, npc, d, desired, endsAt, now).kpi;
      && k'.hits + k'.misses == k.hits + k.misses + 1
      && k'.degradations - k.degradations == k'.misses - k.misses
      && k'.noWeight - k.noWeight <= k'.degradations - k.degradations
  {
  }

  /** A new interaction is handled once and its key remembered. */
  lemma NewInteraction(sc: Scene, st: Intent, npc: nat, v: View, lod: int, now: Time)
    requires MidTick(sc, st, now / 1000) && 0 <= lod
    requires var ix := ActiveInteraction(sc.interactions, npc, now / 1000);
      ix.Some? && Key(npc, ix.value.atMs) !in st.handled
    ensures var ix := ActiveInteraction(sc.interactions, npc, now / 1000).value;
      var st0 := st.(handled := st.handled + {Key(npc, ix.atMs)});
      var st' := HandleInteraction(st0, npc, v.distance, lod, EndsAt(ix), now);
      MidTick(sc, st', now / 1000) && st'.inFlight == st.inFlight && st'.entries.Keys == st.entries.Keys
  {
    var t := now / 1000;
    var ix := ActiveInteraction(sc.interactions, npc, t).value;
    var st0 := st.(handled := st.handled + {Key(npc, ix.atMs)});
    var actual := BestResident(st0.entries, npc, lod);
    HandleKeeps(st0, npc, v.distance, lod, EndsAt(ix), now);
    HandleKpi(st0, npc, v.distance, lod, EndsAt(ix), now);
    if Disjoint(sc.interactions) {
      NewInteractionHasNoSlot(sc.interactions, st.slots, st.handled, npc, t);
      var w := ActiveFacts(sc.interactions, npc, t);
      BackedAcquire(sc.interactions, st.slots, st.handled, npc, actual, t, w);
      BackedMore(sc.interactions, st.slots, st.handled, st0.handled, t, t);
    }
  }

  lemma TouchMidTick(sc: Scene, st: Intent, k: CacheKey, now: Time, d: real, t: int)
    requires MidTick(sc, st, t)
    ensures MidTick(sc, st.(entries := Touched(st.entries, k, now, d)), t)
  {
    TouchKeeps(st.entries, st.slots, k, now, d);
    hide Safe, Exact, Backed, Current, Disjoint;
  }

  lemma InFlightMidTick(sc: Scene, st: Intent, inFlight: set<nat>, t: int)
    requires MidTick(sc, st, t)
    ensures MidTick(sc, st.(inFlight := inFlight), t)
  {
    hide Safe, Exact, Backed, Current, Disjoint;
  }

  lemma ServeKeeps(sc: Scene, st: Intent, npc: nat, lod: int, v: View, now: Time)
    requires MidTick(sc, st, now / 1000) && 0 <= lod
    ensures var (st', fetch) := Serve(st, npc, lod, v, ActiveInteraction(sc.interactions, npc, now / 1000), now);
      && MidTick(sc, st', now / 1000)
      && (fetch ==> Key(npc, lod) !in st.inFlight && CK(npc, lod) !in st'.entries)
      && st'.inFlight == st.inFlight + if fetch then {Key(npc, lod)} else {}
  {
    hide MidTick, HandleInteraction, Touched, ActiveInteraction, Key, CK;
    var t := now / 1000;
    var ix := ActiveInteraction(sc.interactions, npc, t);
    var st1 := st.(entries := Touched(st.entries, CK(npc, lod), now, v.distance));
    TouchMidTick(sc, st, CK(npc, lod), now, v.distance, t);
    var st2 := st1;
    if ix.Some? && Key(npc, ix.value.atMs) !in st1.handled {
      NewInteraction(sc, st1, npc, v, lod, now);
      st2 := st1.(handled := st1.handled + {Key(npc, ix.value.atMs)});
      st2 := HandleInteraction(st2, npc, v.distance, lod, EndsAt(ix.value), now);
    }
    InFlightMidTick(sc, st2, st2.inFlight + {Key(npc, lod)}, t);
  }

  function KeyOf(r: Request): nat {
    Key(r.npc, r.lod)
  }

  predicate Wanted(rs: seq<Request>, k: nat) {
    exists i :: 0 <= i < |rs| && KeyOf(rs[i]) == k
  }

  /** The fetches asked for are new, distinct, and remembered as in flight. */
  ghost predicate Asked(before: set<nat>, after: set<nat>, rs: seq<Request>) {
    && (forall i :: 0 <= i < |rs| ==> KeyOf(rs[i]) !in before)
    && (forall i, j :: 0 <= i < j < |rs| ==> KeyOf(rs[i]) != KeyOf(rs[j]))
    && (forall k :: k in after <==> k in before || Wanted(rs, k))
  }

  lemma WantedMore(rs: seq<Request>, r: Request, k: nat)
    ensures Wanted(rs + [r], k) <==> Wanted(rs, k) || k == KeyOf(r)
  {
    var rs' := rs + [r];
    if i :| 0 <= i < |rs| && KeyOf(rs[i]) == k {
      assert KeyOf(rs'[i]) == k;
    }
    if k == KeyOf(r) {
      assert KeyOf(rs'[|rs|]) == k;
    }
  }

  lemma AskedMore(before: set<nat>, mid: set<nat>, rs: seq<Request>, r: Request)
    requires Asked(before, mid, rs) && KeyOf(r) !in mid
    ensures Asked(before, mid + {KeyOf(r)}, rs + [r])
  {
    forall k ensures Wanted(rs + [r], k) <==> Wanted(rs, k) || k == KeyOf(r) {
      WantedMore(rs, r, k);
    }
    forall i | 0 <= i < |rs| ensures KeyOf(rs[i]) != KeyOf(r) {
      assert Wanted(rs, KeyOf(rs[i]));
    }
  }

  lemma AskedNothing(before: set<nat>)
    ensures Asked(before, before, [])
  {
  }

  lemma LastLodMidTick(sc: Scene, st: Intent, lastLod: map<nat, int>, t: int)
    requires MidTick(sc, st, t)
    ensures MidTick(sc, st.(lastLod := lastLod), t)
  {
    hide Safe, Exact, Backed, Current, Disjoint;
  }

  lemma {:induction false} VisitKeeps(ip: IntentConfig, sc: Scene, st: Intent, n: nat, now: Time)
    requires MidTick(sc, st, now / 1000) && n <= |sc.npcs|
    ensures var (st', rs) := VisitNpcs(ip, sc, st, n, now);
      MidTick(sc, st', now / 1000) && Asked(st.inFlight, st'.inFlight, rs) && AllLevels(rs) && |rs| <= n
  {
    hide MidTick, Asked, Serve, ActiveInteraction, Key, CK;
    if n == 0 {
      AskedNothing(st.inFlight);
    } else {
      VisitKeeps(ip, sc, st, n - 1, now);
      var (st1, rs) := VisitNpcs(ip, sc, st, n - 1, now);
      var npc := sc.npcs[n - 1];
      var t := now / 1000;
      var v := sc.view(npc.id, t);
      var ix := ActiveInteraction(sc.interactions, npc.id, t);
      var lod := IntentLod(ip, npc.quest, ix.Some?, sc.stopped(t), v);
      LastLodMidTick(sc, st1, st1.lastLod[npc.id := lod], t);
      if lod >= 0 {
        var st2 := st1.(lastLod := st1.lastLod[npc.id := lod]);
        ServeKeeps(sc, st2, npc.id, lod, v, now);
        if Serve(st2, npc.id, lod, v, ix, now).1 {
          AskedMore(st.inFlight, st1.inFlight, rs, Request(npc.id, lod));
        } else {
          assert st1.inFlight + {} == st1.inFlight;
        }
      }
    }
  }

  // ---- Between events ----

  /** What the predictor keeps between events, `t` being the time of the latest tick in milliseconds. */
  ghost predicate IntentInv(sc: Scene, st: Intent, t: int) {
    && Safe(st.entries, st.slots) && KpiOk(st)
    && (Disjoint(sc.interactions) ==>
          Exact(st.entries, st.slots) && Backed(sc.interactions, st.slots, st.handled, t))
  }

  /** A tick keeps slots safe, pins exact (for disjoint windows) and the counters in agreement, and
      asks only for weights that are neither in flight nor resident. */
  lemma TickKeeps(ip: IntentConfig, sc: Scene, st: Intent, t: int, now: Time)
    requires IntentInv(sc, st, t) && t <= now / 1000
    ensures var (st', rs) := IntentTick(ip, sc, st, now);
      && IntentInv(sc, st', now / 1000) && Asked(st.inFlight, st'.inFlight, rs)
      && AllLevels(rs) && |rs| <= |sc.npcs|
  {
    var t' := now / 1000;
    ReleaseKeeps(st.entries, st.slots, t', 0);
    var st1 := ReleaseExpired(st, t');
    if Disjoint(sc.interactions) {
      BackedMore(sc.interactions, st.slots, st.handled, st.handled, t, t');
      forall i | 0 <= i < |st1.slots| && st1.slots[i].occupied
        ensures exists w :: 0 <= w < |sc.interactions| && Backs(sc.interactions, w, st1.slots[i], st.handled, t')
      {
        assert st1.slots[i] == st.slots[i];
      }
    }
    VisitKeeps(ip, sc, st1, |sc.npcs|, now);
  }

  /** A completion keeps all of it too: admissions never evict the weights of an occupied slot. */
  lemma CompleteKeeps(sizes: LodSizes, capacity: Word, sc: Scene, st: Intent, npc: nat, lod: int,
                      d: real, now: Time, st': Intent, t: int)
    requires IntentInv(sc, st, t) && IntentComplete(sizes, capacity, sc, st, npc, lod, d, now, st')
    ensures IntentInv(sc, st', t) && st'.inFlight == st.inFlight - {Key(npc, lod)}
  {
    var e := CacheEntry(CK(npc, lod), Encode(sizes, lod), now, d, 0);
    var r :| Admits(capacity, st.entries, e, st'.entries, r);
    AdmitKeepsPins(capacity, st.entries, e, st'.entries, r);
    forall i | 0 <= i < |st.slots| ensures SlotPinned(st'.entries, st.slots[i]) {
      assert SlotPinned(st.entries, st.slots[i]);
    }
    if Disjoint(sc.interactions) {
      forall k | k in st'.entries ensures st'.entries[k].pins == SlotCount(st.slots, k) {
        if k !in st.entries {
          forall i | 0 <= i < |st.slots| && st.slots[i].occupied ensures SlotKey(st.slots[i]) != k {
            assert SlotPinned(st.entries, st.slots[i]);
          }
          CountZero(st.slots, k);
        }
      }
    }
  }

  // ---- Re-used slots ----

  /** A slot re-used for the same weights keeps a pin that no release will take back. */
  lemma ReuseLeaksPin(st: Intent, npc: nat, d: real, now: Time, endsAt: int)
    requires st.slots == [CoreSlot(true, npc, 0, 10)] && endsAt >= 10
    requires st.entries == map[CK(npc, 0) := CacheEntry(CK(npc, 0), 1, 0, d, 1)]
    ensures var st1 := HandleInteraction(st, npc, d, 0, endsAt, now);
      var st2 := ReleaseExpired(st1, endsAt);
      |st2.slots| == 1 && !st2.slots[0].occupied && CK(npc, 0) in st2.entries && st2.entries[CK(npc, 0)].pins == 1
  {
    var st1 := HandleInteraction(st, npc, d, 0, endsAt, now);
    assert BestResident(st.entries, npc, 0) == 0 && SlotOf(st.slots, npc, 0) == 0;
    assert st1.slots == [CoreSlot(true, npc, 0, endsAt)];
    assert st1.entries[CK(npc, 0)].pins == 2;
    ReleaseOneLeft(st1.entries, st1.slots, endsAt);
  }

  lemma ReleaseOneLeft(m: Entries, slots: seq<CoreSlot>, t: int)
    requires |slots| == 1 && slots[0].occupied && t >= slots[0].endsAt
    ensures ReleaseFrom(m, slots, t, 0) == (PinnedLess(m, SlotKey(slots[0])), [slots[0].(occupied := false)])
  {
    var slots' := slots[0 := slots[0].(occupied := false)];
    assert slots' == [slots[0].(occupied := false)];
    var m' := PinnedLess(m, SlotKey(slots[0]));
    assert ReleaseFrom(m, slots, t, 0) == ReleaseFrom(m', slots', t, 1);
    assert ReleaseFrom(m', slots', t, 1) == (m', slots');
  }
}
