/** The weight cache over whole simulations: what is in it, that it fits, and where every delivery went. */
module CacheRuns {
  import opened Base
  import opened Configuration
  import opened Scheduling
  import opened KpiAgreement
  import opened AdmissionCosts
  import opened NpuCaches
  import opened Prefetching
  import opened SlotSafety
  import opened EventQueues
  import opened Simulation
  import opened SimulationSafety
  import opened PrefetchProtocol
  import opened Interactions
  import opened FetchRuns
  import opened FiringOrder

  // ---- What an entry is ----

  /** An entry is filed under its key and is as large as the configured weights of its level. */
  predicate Filed(sizes: LodSizes, k: CacheKey, e: CacheEntry) {
    e.key == k && 0 <= k.lod <= 2 && e.size == (SizeMb(sizes, k.lod) % 4096) * MB
  }

  /** The distance is that of the NPC when the entry was last accessed: at its arrival or at a tick. */
  predicate Dated(s: Setup, k: CacheKey, e: CacheEntry, now: Time) {
    && e.lastAccess <= now
    && (e.distance == s.place(k.npc, e.lastAccess / 1000)
        || e.distance == s.sc.view(k.npc, e.lastAccess / 1000).distance)
  }

  ghost predicate Stocked(s: Setup, m: Entries, now: Time) {
    forall k :: k in m ==> Filed(s.cfg.lodSizes, k, m[k]) && Dated(s, k, m[k], now)
  }

  /** Nothing has come, gone or changed its size. */
  ghost predicate SameStock(m: Entries, m': Entries) {
    m'.Keys == m.Keys && forall k :: k in m ==> m'[k].key == m[k].key && m'[k].size == m[k].size
  }

  lemma {:induction false} SameBytes(m: Entries, m': Entries)
    requires SameStock(m, m')
    ensures Bytes(m') == Bytes(m) && |m'| == |m|
    decreases |m|
  {
    assert |m| == |m.Keys| && |m'| == |m'.Keys|;
    if m != map[] {
      var k :| k in m;
      SameBytes(m - {k}, m' - {k});
      BytesRemove(m, k);
      BytesRemove(m', k);
    } else {
      assert m' == map[];
    }
  }

  // ---- Ticks ----

  predicate SameTime(e: CacheEntry, e': CacheEntry) {
    e'.lastAccess == e.lastAccess && e'.distance == e.distance
  }

  /** The entry was accessed now, and carries the distance of its NPC now. */
  predicate FreshAt(s: Setup, k: CacheKey, e: CacheEntry, now: Time) {
    e.lastAccess == now && e.distance == s.sc.view(k.npc, now / 1000).distance
  }

  /** What a tick at `now` may do to the entries and the counters of the cache. */
  ghost predicate OnlySeen(s: Setup, st: Intent, st': Intent, now: Time) {
    && SameStock(st.entries, st'.entries)
    && (forall k :: k in st.entries ==> SameTime(st.entries[k], st'.entries[k]) || FreshAt(s, k, st'.entries[k], now))
    && st'.kpi.evictions == st.kpi.evictions && st'.kpi.refusals == st.kpi.refusals
    && (Stocked(s, st.entries, now) ==> Stocked(s, st'.entries, now))
  }

  lemma SeenJoin(s: Setup, a: Intent, b: Intent, c: Intent, now: Time)
    requires OnlySeen(s, a, b, now) && OnlySeen(s, b, c, now)
    ensures OnlySeen(s, a, c, now)
  {
    hide Stocked;
  }

  lemma TouchSeen(s: Setup, st: Intent, k: CacheKey, now: Time)
    ensures OnlySeen(s, st, st.(entries := Touched(st.entries, k, now, s.sc.view(k.npc, now / 1000).distance)), now)
  {
  }

  lemma PinSeen(s: Setup, st: Intent, k: CacheKey, now: Time)
    ensures OnlySeen(s, st, st.(entries := PinnedMore(st.entries, k)), now)
    ensures OnlySeen(s, st, st.(entries := PinnedLess(st.entries, k)), now)
  {
  }

  /** Changing anything but entries, evictions and refusals is invisible here. */
  lemma RestSeen(s: Setup, st: Intent, st': Intent, now: Time)
    requires st'.entries == st.entries && st'.kpi.evictions == st.kpi.evictions && st'.kpi.refusals == st.kpi.refusals
    ensures OnlySeen(s, st, st', now)
  {
  }

  lemma HandleSeen(s: Setup, st: Intent, npc: nat, desired: int, endsAt: int, now: Time)
    ensures OnlySeen(s, st, HandleInteraction(st, npc, s.sc.view(npc, now / 1000).distance, desired, endsAt, now), now)
  {
    hide OnlySeen, BestResident, Prefetching.AcquireSlot, Touched, PinnedMore;
    var st' := HandleInteraction(st, npc, s.sc.view(npc, now / 1000).distance, desired, endsAt, now);
    var k := CK(npc, BestResident(st.entries, npc, desired));
    var st1 := st.(entries := PinnedMore(st.entries, k));
    var st2 := st1.(entries := Touched(st1.entries, k, now, s.sc.view(k.npc, now / 1000).distance));
    PinSeen(s, st, k, now);
    TouchSeen(s, st1, k, now);
    SeenJoin(s, st, st1, st2, now);
    if st'.entries == st.entries {
      RestSeen(s, st, st', now);
    } else {
      RestSeen(s, st2, st', now);
      SeenJoin(s, st, st2, st', now);
    }
  }

  lemma ServeSeen(s: Setup, st: Intent, npc: nat, lod: int, ix: Option<Interaction>, now: Time)
    ensures OnlySeen(s, st, Serve(st, npc, lod, s.sc.view(npc, now / 1000), ix, now).0, now)
  {
    hide OnlySeen, HandleInteraction, Touched, Key;
    var v := s.sc.view(npc, now / 1000);
    var st1 := st.(entries := Touched(st.entries, CK(npc, lod), now, v.distance));
    TouchSeen(s, st, CK(npc, lod), now);
    var st2 := st1;
    if ix.Some? && Key(npc, ix.value.atMs) !in st1.handled {
      var st3 := st1.(handled := st1.handled + {Key(npc, ix.value.atMs)});
      st2 := HandleInteraction(st3, npc, v.distance, lod, EndsAt(ix.value), now);
      RestSeen(s, st1, st3, now);
      HandleSeen(s, st3, npc, lod, EndsAt(ix.value), now);
      SeenJoin(s, st, st1, st3, now);
      SeenJoin(s, st, st3, st2, now);
    }
    var st4 := Serve(st, npc, lod, v, ix, now).0;
    RestSeen(s, st2, st4, now);
    SeenJoin(s, st, st2, st4, now);
  }

  lemma {:induction false} VisitsSeen(s: Setup, ip: IntentConfig, st: Intent, n: nat, now: Time)
    requires n <= |s.sc.npcs|
    ensures OnlySeen(s, st, VisitNpcs(ip, s.sc, st, n, now).0, now)
  {
    hide OnlySeen, Serve, ActiveInteraction;
    if n == 0 {
      RestSeen(s, st, st, now);
    } else {
      VisitsSeen(s, ip, st, n - 1, now);
      var st1, npc := VisitNpcs(ip, s.sc, st, n - 1, now).0, s.sc.npcs[n - 1];
      var ix := ActiveInteraction(s.sc.interactions, npc.id, now / 1000);
      var v := s.sc.view(npc.id, now / 1000);
      var lod := IntentLod(ip, npc.quest, ix.Some?, s.sc.stopped(now / 1000), v);
      var st2 := st1.(lastLod := st1.lastLod[npc.id := lod]);
      RestSeen(s, st1, st2, now);
      SeenJoin(s, st, st1, st2, now);
      ServeSeen(s, st2, npc.id, lod, ix, now);
      SeenJoin(s, st, st2, Serve(st2, npc.id, lod, v, ix, now).0, now);
    }
  }

  lemma {:induction false} ReleaseSeen(s: Setup, st: Intent, m: Entries, slots: seq<CoreSlot>, t: int, i: nat,
                                       now: Time)
    ensures OnlySeen(s, st.(entries := m), st.(entries := ReleaseFrom(m, slots, t, i).0), now)
    decreases |slots| - i
  {
    hide OnlySeen, PinnedLess;
    var st0 := st.(entries := m);
    if i >= |slots| {
      RestSeen(s, st0, st0, now);
    } else if slots[i].occupied && t >= slots[i].endsAt {
      var k := CK(slots[i].npc, slots[i].lod);
      PinSeen(s, st0, k, now);
      ReleaseSeen(s, st, PinnedLess(m, k), slots[i := slots[i].(occupied := false)], t, i + 1, now);
      SeenJoin(s, st0, st.(entries := PinnedLess(m, k)), st.(entries := ReleaseFrom(m, slots, t, i).0), now);
    } else {
      ReleaseSeen(s, st, m, slots, t, i + 1, now);
    }
  }

  lemma TickSeen(s: Setup, ip: IntentConfig, st: Intent, now: Time)
    ensures OnlySeen(s, st, IntentTick(ip, s.sc, st, now).0, now)
  {
    hide OnlySeen, ReleaseFrom, VisitNpcs;
    ReleaseSeen(s, st, st.entries, st.slots, now / 1000, 0, now);
    var st1 := ReleaseExpired(st, now / 1000);
    var st0 := st.(entries := ReleaseFrom(st.entries, st.slots, now / 1000, 0).0);
    assert st.(entries := st.entries) == st;
    RestSeen(s, st0, st1, now);
    SeenJoin(s, st, st0, st1, now);
    VisitsSeen(s, ip, st1, |s.sc.npcs|, now);
    SeenJoin(s, st, st1, IntentTick(ip, s.sc, st, now).0, now);
  }

  // ---- A tick refreshes what it looks at ----

  /** The level that a visit at `now` chooses for an NPC. */
  function Chosen(s: Setup, ip: IntentConfig, npc: Npc, now: Time): int {
    var t := now / 1000;
    var interacting := ActiveInteraction(s.sc.interactions, npc.id, t).Some?;
    IntentLod(ip, npc.quest, interacting, s.sc.stopped(t), s.sc.view(npc.id, t))
  }

  ghost predicate Refreshed(s: Setup, m: Entries, k: CacheKey, now: Time) {
    k in m ==> FreshAt(s, k, m[k], now)
  }

  lemma StaysFresh(s: Setup, st: Intent, st': Intent, k: CacheKey, now: Time)
    requires OnlySeen(s, st, st', now) && Refreshed(s, st.entries, k, now)
    ensures Refreshed(s, st'.entries, k, now)
  {
    assert k in st'.entries.Keys <==> k in st.entries.Keys;
  }

  lemma ServeRefreshes(s: Setup, st: Intent, npc: nat, lod: int, ix: Option<Interaction>, now: Time)
    ensures Refreshed(s, Serve(st, npc, lod, s.sc.view(npc, now / 1000), ix, now).0.entries, CK(npc, lod), now)
  {
    var v := s.sc.view(npc, now / 1000);
    var st1 := st.(entries := Touched(st.entries, CK(npc, lod), now, v.distance));
    assert Refreshed(s, st1.entries, CK(npc, lod), now);
    hide OnlySeen, HandleInteraction, Touched, Key, CK, Refreshed;
    if ix.Some? && Key(npc, ix.value.atMs) !in st1.handled {
      var st3 := st1.(handled := st1.handled + {Key(npc, ix.value.atMs)});
      HandleSeen(s, st3, npc, lod, EndsAt(ix.value), now);
      StaysFresh(s, st3, HandleInteraction(st3, npc, v.distance, lod, EndsAt(ix.value), now), CK(npc, lod), now);
    }
  }

  lemma {:induction false} VisitsRefresh(s: Setup, ip: IntentConfig, st: Intent, n: nat, i: nat, now: Time)
    requires i < n <= |s.sc.npcs| && Chosen(s, ip, s.sc.npcs[i], now) >= 0
    ensures var k := CK(s.sc.npcs[i].id, Chosen(s, ip, s.sc.npcs[i], now));
      Refreshed(s, VisitNpcs(ip, s.sc, st, n, now).0.entries, k, now)
  {
    hide OnlySeen, Serve, ActiveInteraction, Refreshed, IntentLod;
    var st1, npc := VisitNpcs(ip, s.sc, st, n - 1, now).0, s.sc.npcs[n - 1];
    var ix := ActiveInteraction(s.sc.interactions, npc.id, now / 1000);
    var lod := Chosen(s, ip, npc, now);
    var st2 := st1.(lastLod := st1.lastLod[npc.id := lod]);
    if i == n - 1 {
      ServeRefreshes(s, st2, npc.id, lod, ix, now);
    } else {
      var k := CK(s.sc.npcs[i].id, Chosen(s, ip, s.sc.npcs[i], now));
      VisitsRefresh(s, ip, st, n - 1, i, now);
      RestSeen(s, st1, st2, now);
      StaysFresh(s, st1, st2, k, now);
      ServeSeen(s, st2, npc.id, lod, ix, now);
      StaysFresh(s, st2, Serve(st2, npc.id, lod, s.sc.view(npc.id, now / 1000), ix, now).0, k, now);
    }
  }

  /** After a tick the level chosen for each NPC, if it is resident, carries the time and the distance of the
      tick; any other entry carries them too or is as old as it was. */
  lemma TickRefreshes(s: Setup, ip: IntentConfig, st: Intent, now: Time)
    ensures var m, m' := st.entries, IntentTick(ip, s.sc, st, now).0.entries;
      && m'.Keys == m.Keys
      && (forall i :: 0 <= i < |s.sc.npcs| && Chosen(s, ip, s.sc.npcs[i], now) >= 0 ==>
            Refreshed(s, m', CK(s.sc.npcs[i].id, Chosen(s, ip, s.sc.npcs[i], now)), now))
      && (forall k :: k in m ==> SameTime(m[k], m'[k]) || FreshAt(s, k, m'[k], now))
  {
    TickSeen(s, ip, st, now);
    hide VisitNpcs, ReleaseExpired, Chosen, Refreshed;
    forall i | 0 <= i < |s.sc.npcs| && Chosen(s, ip, s.sc.npcs[i], now) >= 0
      ensures Refreshed(s, IntentTick(ip, s.sc, st, now).0.entries,
                        CK(s.sc.npcs[i].id, Chosen(s, ip, s.sc.npcs[i], now)), now)
    {
      VisitsRefresh(s, ip, ReleaseExpired(st, now / 1000), |s.sc.npcs|, i, now);
    }
  }

  /** The finest resident level that is not finer than desired. */
  predicate Finest(m: Entries, npc: nat, desired: int, lod: int) {
    desired <= lod <= 2 && CK(npc, lod) in m && forall l :: desired <= l < lod ==> CK(npc, l) !in m
  }

  /** An interaction that gets a core slot refreshes the weights it uses: the finest resident level of the NPC
      that is not finer than desired. */
  lemma HandleRefreshes(s: Setup, st: Intent, npc: nat, desired: int, endsAt: int, now: Time)
    requires 0 <= desired <= 2
    ensures var st' := HandleInteraction(st, npc, s.sc.view(npc, now / 1000).distance, desired, endsAt, now);
      st'.kpi.saturations == st.kpi.saturations ==>
        forall lod :: Finest(st.entries, npc, desired, lod) ==> Refreshed(s, st'.entries, CK(npc, lod), now)
  {
    BestResidentFacts(st.entries, npc, desired);
  }

  // ---- In flight and resident never overlap ----

  ghost predicate Apart(st: Intent) {
    forall npc: nat, lod :: IsLod(lod) && Key(npc, lod) in st.inFlight ==> CK(npc, lod) !in st.entries
  }

  lemma FetchApart(st: Intent, st': Intent, npc: nat, lod: int)
    requires Apart(st) && SameStock(st.entries, st'.entries) && IsLod(lod) && CK(npc, lod) !in st.entries
    requires st'.inFlight == st.inFlight + {Key(npc, lod)}
    ensures Apart(st')
  {
    forall n: nat, l | IsLod(l) && Key(n, l) in st'.inFlight ensures CK(n, l) !in st'.entries {
      KeyInjective(n, l, npc, lod);
    }
  }

  lemma SameApart(st: Intent, st': Intent)
    requires Apart(st) && SameStock(st.entries, st'.entries) && st'.inFlight == st.inFlight
    ensures Apart(st')
  {
  }

  lemma HandleInFlight(st: Intent, npc: nat, d: real, desired: int, endsAt: int, now: Time)
    ensures HandleInteraction(st, npc, d, desired, endsAt, now).inFlight == st.inFlight
  {
  }

  lemma ServeApart(s: Setup, st: Intent, npc: nat, lod: int, ix: Option<Interaction>, now: Time)
    requires Apart(st) && IsLod(lod)
    ensures Apart(Serve(st, npc, lod, s.sc.view(npc, now / 1000), ix, now).0)
  {
    ServeSeen(s, st, npc, lod, ix, now);
    ServeFetches(st, npc, lod, s.sc.view(npc, now / 1000), ix, now);
    hide Serve, Apart, Key, SameStock, Stocked;
    var (st', fetch) := Serve(st, npc, lod, s.sc.view(npc, now / 1000), ix, now);
    if fetch {
      KeysKept(st.entries, st'.entries, CK(npc, lod));
      FetchApart(st, st', npc, lod);
    } else {
      SameApart(st, st');
    }
  }

  lemma KeysKept(m: Entries, m': Entries, k: CacheKey)
    requires SameStock(m, m')
    ensures k in m' <==> k in m
  {
    assert k in m'.Keys <==> k in m.Keys;
  }

  lemma ServeFetches(st: Intent, npc: nat, lod: int, v: View, ix: Option<Interaction>, now: Time)
    ensures var (st', fetch) := Serve(st, npc, lod, v, ix, now);
      && st'.inFlight == (if fetch then st.inFlight + {Key(npc, lod)} else st.inFlight)
      && (fetch ==> CK(npc, lod) !in st'.entries)
  {
    hide HandleInteraction, Touched, Key;
    var st1 := st.(entries := Touched(st.entries, CK(npc, lod), now, v.distance));
    if ix.Some? && Key(npc, ix.value.atMs) !in st1.handled {
      var st2 := st1.(handled := st1.handled + {Key(npc, ix.value.atMs)});
      HandleInFlight(st2, npc, v.distance, lod, EndsAt(ix.value), now);
    }
  }

  lemma {:induction false} VisitsApart(s: Setup, ip: IntentConfig, st: Intent, n: nat, now: Time)
    requires n <= |s.sc.npcs| && Apart(st)
    ensures Apart(VisitNpcs(ip, s.sc, st, n, now).0)
  {
    hide Serve, ActiveInteraction, Apart;
    if n > 0 {
      VisitsApart(s, ip, st, n - 1, now);
      var st1, npc := VisitNpcs(ip, s.sc, st, n - 1, now).0, s.sc.npcs[n - 1];
      var ix := ActiveInteraction(s.sc.interactions, npc.id, now / 1000);
      var lod := IntentLod(ip, npc.quest, ix.Some?, s.sc.stopped(now / 1000), s.sc.view(npc.id, now / 1000));
      var st2 := st1.(lastLod := st1.lastLod[npc.id := lod]);
      SameApart(st1, st2);
      if lod >= 0 {
        ServeApart(s, st2, npc.id, lod, ix, now);
      }
    }
  }

  lemma TickApart(s: Setup, ip: IntentConfig, st: Intent, now: Time)
    requires Apart(st)
    ensures Apart(IntentTick(ip, s.sc, st, now).0)
  {
    ReleaseSeen(s, st, st.entries, st.slots, now / 1000, 0, now);
    hide ReleaseFrom, VisitNpcs, Apart, Stocked;
    assert st.(entries := st.entries) == st;
    SameApart(st, ReleaseExpired(st, now / 1000));
    VisitsApart(s, ip, ReleaseExpired(st, now / 1000), |s.sc.npcs|, now);
  }

  // ---- Arrivals ----

  lemma StockedLater(s: Setup, m: Entries, now: Time, later: Time)
    requires Stocked(s, m, now) && now <= later
    ensures Stocked(s, m, later)
  {
  }

  lemma {:induction false} PrefixGone(m: Entries, s: seq<CacheKey>)
    requires forall i :: 0 <= i < |s| ==> s[i] in m
    requires forall i, j :: 0 <= i < j < |s| ==> s[i] != s[j]
    ensures |m - NpuCaches.Keys(s)| == |m| - |s|
  {
    if s == [] {
      assert m - NpuCaches.Keys(s) == m;
    } else {
      var init, last := s[..|s| - 1], s[|s| - 1];
      PrefixGone(m, init);
      assert last !in init;
      OneGone(m, NpuCaches.Keys(init), last);
      assert NpuCaches.Keys(s) == NpuCaches.Keys(init) + {last};
    }
  }

  lemma OneGone(m: Entries, gone: set<CacheKey>, k: CacheKey)
    requires k in m && k !in gone
    ensures |m - (gone + {k})| == |m - gone| - 1
  {
    var rest := m - gone;
    assert k in rest;
    assert (m - (gone + {k})).Keys == rest.Keys - {k};
    assert |m - (gone + {k})| == |(m - (gone + {k})).Keys| && |rest| == |rest.Keys|;
  }

  lemma EvictedOnce(m: Entries, evicted: seq<CacheKey>, t: seq<CacheKey>)
    requires SortedOut(m, t) && evicted <= t
    ensures |m - NpuCaches.Keys(evicted)| == |m| - |evicted|
  {
    forall i, j | 0 <= i < j < |evicted| ensures evicted[i] != evicted[j] {
      assert t[i] != t[j];
    }
    forall i | 0 <= i < |evicted| ensures evicted[i] in m {
      assert t[i] in m;
    }
    PrefixGone(m, evicted);
  }

  lemma MadeCount(capacity: Word, m: Entries, e: CacheEntry, m': Entries, r: Admission)
    requires Makes(capacity, m, e, m', r) && e.key !in m
    ensures |m'| + |r.evicted| == |m| + (if r.accepted then 1 else 0) && (e.key in m' <==> r.accepted)
  {
    hide SortedOut, TooFew, Crowded;
    var t :| SortedOut(m, t) && r.evicted <= t && (!r.accepted ==> r.evicted == t);
    EvictedOnce(m, r.evicted, t);
    var rest := m - NpuCaches.Keys(r.evicted);
    OneMoreEntry(rest, e);
  }

  lemma OneMoreEntry(m: Entries, e: CacheEntry)
    requires e.key !in m
    ensures |m[e.key := e]| == |m| + 1
  {
    assert m[e.key := e].Keys == m.Keys + {e.key};
  }

  /** An arrival that is stored adds an entry, less what it evicts; any other is counted as a refusal. */
  predicate Counted(st: Intent, st': Intent, k: CacheKey) {
    var stored := if k in st'.entries then 1 else 0;
    && |st'.entries| + st'.kpi.evictions == |st.entries| + st.kpi.evictions + stored
    && st'.kpi.refusals == st.kpi.refusals + 1 - stored
  }

  lemma ArrivalCounted(s: Setup, capacity: Word, st: Intent, npc: nat, lod: int, d: real, now: Time, st': Intent)
    requires IntentComplete(s.cfg.lodSizes, capacity, s.sc, st, npc, lod, d, now, st') && CK(npc, lod) !in st.entries
    ensures Counted(st, st', CK(npc, lod))
  {
    var e := CacheEntry(CK(npc, lod), Encode(s.cfg.lodSizes, lod), now, d, 0);
    var r :| Admits(capacity, st.entries, e, st'.entries, r)
      && st' == st.(inFlight := st.inFlight - {Key(npc, lod)}, entries := st'.entries,
                    kpi := st.kpi.(evictions := st.kpi.evictions + |r.evicted|,
                                   refusals := st.kpi.refusals + if r.accepted then 0 else 1));
    hide Encode;
    if e.size <= capacity {
      MadeCount(capacity, st.entries, e, st'.entries, r);
    }
  }

  lemma NewFiled(s: Setup, npc: nat, lod: int, now: Time)
    requires IsLod(lod)
    ensures var e := CacheEntry(CK(npc, lod), Encode(s.cfg.lodSizes, lod), now, s.place(npc, now / 1000), 0);
      Filed(s.cfg.lodSizes, CK(npc, lod), e) && Dated(s, CK(npc, lod), e, now)
  {
    EncodedMegabytes(s.cfg.lodSizes, lod);
  }

  /** An arrival keeps every entry what it should be, and one that is stored is dated now. */
  lemma ArrivalStocked(s: Setup, capacity: Word, st: Intent, npc: nat, lod: int, now: Time, st': Intent)
    requires IntentComplete(s.cfg.lodSizes, capacity, s.sc, st, npc, lod, s.place(npc, now / 1000), now, st')
    requires Stocked(s, st.entries, now) && IsLod(lod)
    ensures Stocked(s, st'.entries, now)
    ensures capacity < 0x8000_0000 && Bytes(st.entries) <= capacity ==> Bytes(st'.entries) <= capacity
    ensures CK(npc, lod) in st'.entries ==>
      st'.entries[CK(npc, lod)].lastAccess == now && st'.entries[CK(npc, lod)].distance == s.place(npc, now / 1000)
  {
    var e := CacheEntry(CK(npc, lod), Encode(s.cfg.lodSizes, lod), now, s.place(npc, now / 1000), 0);
    NewFiled(s, npc, lod, now);
    hide Encode, Bytes, Filed, CK;
    var r :| Admits(capacity, st.entries, e, st'.entries, r);
    if capacity < 0x8000_0000 && Bytes(st.entries) <= capacity {
      AdmitBytes(capacity, st.entries, e, st'.entries, r);
    }
    AdmitStocked(s, capacity, st.entries, e, st'.entries, r, now);
  }

  lemma AdmitStocked(s: Setup, capacity: Word, m: Entries, e: CacheEntry, m': Entries, r: Admission, now: Time)
    requires Admits(capacity, m, e, m', r) && Stocked(s, m, now)
    requires Filed(s.cfg.lodSizes, e.key, e) && Dated(s, e.key, e, now) && e.lastAccess == now
    requires e.distance == s.place(e.key.npc, now / 1000)
    ensures Stocked(s, m', now)
    ensures e.key in m' ==> m'[e.key].lastAccess == now && m'[e.key].distance == e.distance
  {
    hide TooFew, Crowded, SortedOut;
  }

  lemma ArrivalApart(s: Setup, capacity: Word, st: Intent, npc: nat, lod: int, d: real, now: Time, st': Intent)
    requires IntentComplete(s.cfg.lodSizes, capacity, s.sc, st, npc, lod, d, now, st') && Apart(st) && IsLod(lod)
    ensures Apart(st')
  {
    var e := CacheEntry(CK(npc, lod), Encode(s.cfg.lodSizes, lod), now, d, 0);
    var r :| Admits(capacity, st.entries, e, st'.entries, r);
    AdmitKeepsPins(capacity, st.entries, e, st'.entries, r);
    hide Admits, Encode, IntentComplete;
    assert st'.inFlight == st.inFlight - {Key(npc, lod)} by {
      CompleteInFlight(s, capacity, st, npc, lod, d, now, st');
    }
    forall n: nat, l | IsLod(l) && Key(n, l) in st'.inFlight ensures CK(n, l) !in st'.entries {
      KeyInjective(n, l, npc, lod);
    }
  }

  lemma CompleteInFlight(s: Setup, capacity: Word, st: Intent, npc: nat, lod: int, d: real, now: Time, st': Intent)
    requires IntentComplete(s.cfg.lodSizes, capacity, s.sc, st, npc, lod, d, now, st')
    ensures st'.inFlight == st.inFlight - {Key(npc, lod)}
  {
    hide Admits, Key;
  }

  // ---- Deliveries in the trace ----

  lemma {:induction false} DropsDeliverNothing(b: Bus)
    requires b.slot.None?
    ensures Tally(DropExpired(b).log, WeightDone) == Tally(b.log, WeightDone)
    decreases |Queue(b.d, GuardedLane(b.d))|
  {
    if HeadExpired(b) {
      DropsDeliverNothing(DropHead(b));
    }
  }

  lemma StartDeliversNothing(b: Bus)
    ensures Tally(StartIfIdle(b).log, WeightDone) == Tally(b.log, WeightDone)
  {
    if b.slot.None? {
      DropsDeliverNothing(Do(b, Refill));
      hide DropExpired;
    }
  }

  lemma AcceptDeliversNothing(b: Bus, tx: Txn)
    ensures Tally(Accept(b, tx).log, WeightDone) == Tally(b.log, WeightDone)
  {
    StartDeliversNothing(Admit(b, tx));
    hide StartIfIdle, NewPending;
  }

  lemma QuantumDelivers(b: Bus)
    requires b.slot.Some?
    ensures Tally(QuantumEnd(b).log, WeightDone) == Tally(b.log, WeightDone) + if DeliversWeights(b) then 1 else 0
  {
    StartDeliversNothing(Retire(b));
    hide StartIfIdle;
  }

  lemma SubmitDeliversNothing(w: World, tx: Txn)
    ensures Tally(Submit(w, tx).bus.log, WeightDone) == Tally(w.bus.log, WeightDone)
  {
    AcceptDeliversNothing(w.bus, tx);
    hide Accept, Insert, Tally;
  }

  predicate Delivers(w: World) {
    w.items != [] && w.items[0].ev.QuantumDone? && DeliversWeights(Pull(w).bus)
  }

  lemma StepDelivers(s: Setup, w: World, w': World)
    requires Step(s, w, w')
    ensures Tally(w'.bus.log, WeightDone) == Tally(w.bus.log, WeightDone) + if Delivers(w) then 1 else 0
  {
    var w1 := Pull(w);
    hide Tally, Submit, Insert, QuantumEnd, Tick, PostAll, Noted, KnownLevels, DeliversWeights;
    match w.items[0].ev
    case AudioTick => SubmitDeliversNothing(w1.(ids := w1.ids.(audio := w1.ids.audio + 1)), AudioTxn(s, w1));
    case TextureBlock(_, _, _) =>
      SubmitDeliversNothing(w1.(ids := w1.ids.(texture := w1.ids.texture + 1)), TextureTxn(s, w1));
    case WeightIssue(npc, size) =>
      SubmitDeliversNothing(w1.(ids := w1.ids.(weight := w1.ids.weight + 1)), WeightTxn(s, w1, npc, size));
    case PredictorTick =>
      var (p, rs) := Tick(s, w1.pred, w1.bus.now);
      PostAllBus(s, w1.(pred := p), rs);
    case QuantumDone(_) => QuantumDelivers(w1.bus);
  }

  // ---- Whole runs ----

  ghost predicate Bounded(s: Setup, st: Intent) {
    s.kind.ByIntent? && (s.kind.capacity < 0x8000_0000 ==> Bytes(st.entries) <= s.kind.capacity)
  }

  /** What the bus has delivered into the cache: how many were stored, and how many were not. */
  datatype Delivered = Delivered(stored: nat, refused: nat)

  function Delivery(s: Setup, w: World, w': World, d: Delivered): Delivered
    requires Delivers(w) ==> w.bus.slot.Some? && w'.pred.Intents?
  {
    if !Delivers(w) then d
    else
      var tx := w.bus.slot.value.p.tx;
      if CK(tx.inst, Decode(s.cfg.lodSizes, tx.size)) in w'.pred.intent.entries then d.(stored := d.stored + 1)
      else d.(refused := d.refused + 1)
  }

  /** With distinguishable sizes, what was stored is resident or was evicted, and the rest was refused. */
  ghost predicate Balanced(s: Setup, st: Intent, log: Trace, d: Delivered) {
    && Tally(log, WeightDone) == d.stored + d.refused
    && (Distinguishable(s.cfg.lodSizes) ==>
          Apart(st) && |st.entries| + st.kpi.evictions == d.stored && st.kpi.refusals == d.refused)
  }

  ghost predicate Cached(s: Setup, w: World, d: Delivered) {
    && w.pred.Intents? && Stocked(s, w.pred.intent.entries, w.bus.now) && Bounded(s, w.pred.intent)
    && Balanced(s, w.pred.intent, w.bus.log, d)
  }

  lemma TickCached(s: Setup, w: World, w': World, d: Delivered)
    requires s.kind.ByIntent? && WellPosed(s) && WorldInv(s, w) && Step(s, w, w') && IsTick(w) && Cached(s, w, d)
    ensures Cached(s, w', d)
  {
    StepPred(s, w, w');
    StepTime(s, w, w');
    StepDelivers(s, w, w');
    PullInv(s, w);
    hide Step, WorldInv, Tally, Stocked, Bytes, Apart, SameStock, IntentTick, KnownLevels, SameTime, FreshAt;
    var now, st := w.items[0].when, w.pred.intent;
    StockedLater(s, st.entries, w.bus.now, now);
    TickSeen(s, s.kind.ip, st, now);
    SameBytes(st.entries, w'.pred.intent.entries);
    if Distinguishable(s.cfg.lodSizes) {
      TickApart(s, s.kind.ip, st, now);
    }
    hide Distinguishable;
  }

  lemma ArrivalCached(s: Setup, w: World, w': World, d: Delivered)
    requires s.kind.ByIntent? && WellPosed(s) && WorldInv(s, w) && Step(s, w, w') && Delivers(w) && Cached(s, w, d)
    requires Distinguishable(s.cfg.lodSizes) ==> forall npc, lod :: IsLod(lod) ==> Tracked(s, w, npc, lod)
    ensures w.bus.slot.Some? && w'.pred.Intents? && Cached(s, w', Delivery(s, w, w', d))
  {
    StepPred(s, w, w');
    StepTime(s, w, w');
    StepDelivers(s, w, w');
    PullInv(s, w);
    var now, st, tx := w.items[0].when, w.pred.intent, w.bus.slot.value.p.tx;
    assert DeliversWeights(w.bus);
    hide Step, WorldInv, Tally, Stocked, Bytes, Apart, Tracked, DeliversWeights, Distinguishable, KnownLevels;
    var lod := Decode(s.cfg.lodSizes, tx.size);
    assert IsLod(lod);
    StockedLater(s, st.entries, w.bus.now, now);
    hide IntentComplete, Decode;
    ArrivalStocked(s, s.kind.capacity, st, tx.inst, lod, now, w'.pred.intent);
    if Distinguishable(s.cfg.lodSizes) {
      DeliveredInFlight(s, w);
      ArrivalBalanced(s, w, tx.inst, lod, now, w'.pred.intent);
    }
  }

  lemma ArrivalBalanced(s: Setup, w: World, npc: nat, lod: int, now: Time, st': Intent)
    requires s.kind.ByIntent? && w.pred.Intents? && Apart(w.pred.intent)
    requires IsLod(lod) && Key(npc, lod) in InFlight(w.pred)
    requires var d := s.place(npc, now / 1000);
      IntentComplete(s.cfg.lodSizes, s.kind.capacity, s.sc, w.pred.intent, npc, lod, d, now, st')
    ensures Apart(st') && Counted(w.pred.intent, st', CK(npc, lod))
  {
    var st := w.pred.intent;
    assert CK(npc, lod) !in st.entries;
    hide IntentComplete, Apart;
    ArrivalApart(s, s.kind.capacity, st, npc, lod, s.place(npc, now / 1000), now, st');
    ArrivalCounted(s, s.kind.capacity, st, npc, lod, s.place(npc, now / 1000), now, st');
  }

  lemma OtherCached(s: Setup, w: World, w': World, d: Delivered)
    requires WellPosed(s) && WorldInv(s, w) && Step(s, w, w') && !IsTick(w) && !Delivers(w) && Cached(s, w, d)
    ensures Cached(s, w', d)
  {
    StepPred(s, w, w');
    StepTime(s, w, w');
    StepDelivers(s, w, w');
    PullInv(s, w);
    hide Step, WorldInv, Tally, Stocked, Bytes, Apart, DeliversWeights, Noted, Tick, Decode, KnownLevels;
    StockedLater(s, w.pred.intent.entries, w.bus.now, w.items[0].when);
  }

  lemma InitialCached(s: Setup)
    requires s.kind.ByIntent?
    ensures Cached(s, Initial(s), Delivered(0, 0))
  {
    InitialPred(s);
    InitialLog(s);
    hide Initial;
    var i := FreshPredictor(s.kind).intent;
    assert i.entries == map[] && Bytes(i.entries) == 0;
  }

  lemma InitialLog(s: Setup)
    ensures Initial(s).bus.log == Empty
  {
    hide Insert, PostAll, TokenCapacity, RefillRate, FreshPredictor, ScriptRequests;
    BurstsBus(s, StartAudio(s, Nothing(s)), |s.bursts|);
    var w := StartBursts(s, StartAudio(s, Nothing(s)), |s.bursts|);
    PostAllBus(s, w, ScriptRequests(s.sc, |s.sc.npcs|));
  }

  lemma {:induction false} BurstsBus(s: Setup, w: World, n: nat)
    requires n <= |s.bursts|
    ensures StartBursts(s, w, n).bus == w.bus
  {
    if n > 0 {
      BurstsBus(s, w, n - 1);
    }
  }

  /** The deliveries of the first `n` firings of a run. */
  function Deliveries(s: Setup, r: seq<World>, n: nat): Delivered
    requires n < |r| && forall i :: 0 <= i < |r| ==> r[i].pred.Intents?
    requires forall i :: 0 <= i < |r| && Delivers(r[i]) ==> r[i].bus.slot.Some?
  {
    if n == 0 then Delivered(0, 0) else Delivery(s, r[n - 1], r[n], Deliveries(s, r, n - 1))
  }

  lemma DeliversFromSlot(w: World)
    ensures Delivers(w) ==> w.bus.slot.Some?
  {
  }

  lemma RunShape(s: Setup, r: seq<World>)
    requires s.kind.ByIntent? && History(s, r)
    ensures forall i :: 0 <= i < |r| ==> r[i].pred.Intents?
    ensures forall i :: 0 <= i < |r| && Delivers(r[i]) ==> r[i].bus.slot.Some?
  {
    hide Initial, Step, Delivers;
    forall i | 0 <= i < |r| ensures r[i].pred.Intents? && (Delivers(r[i]) ==> r[i].bus.slot.Some?) {
      RunIntents(s, r, i);
      DeliversFromSlot(r[i]);
    }
  }

  lemma TickIsNoDelivery(w: World)
    ensures IsTick(w) ==> !Delivers(w)
  {
  }

  lemma {:induction false} RunCached(s: Setup, r: seq<World>, n: nat)
    requires s.kind.ByIntent? && WellPosed(s) && History(s, r) && n < |r|
    requires forall i :: 0 <= i < |r| ==> r[i].pred.Intents?
    requires forall i :: 0 <= i < |r| && Delivers(r[i]) ==> r[i].bus.slot.Some?
    ensures Cached(s, r[n], Deliveries(s, r, n))
  {
    hide Initial, Step, WorldInv, WellPosed, Cached, IsTick, Delivers, Distinguishable, Tracked;
    if n == 0 {
      InitialCached(s);
    } else {
      RunCached(s, r, n - 1);
      HistoryInv(s, r, n - 1);
      assert StepsAt(s, r, n - 1);
      var d := Deliveries(s, r, n - 1);
      TickIsNoDelivery(r[n - 1]);
      if IsTick(r[n - 1]) {
        TickCached(s, r[n - 1], r[n], d);
      } else if Delivers(r[n - 1]) {
        AllTracked(s, r, n - 1);
        ArrivalCached(s, r[n - 1], r[n], d);
      } else {
        OtherCached(s, r[n - 1], r[n], d);
      }
    }
  }

  lemma AllTracked(s: Setup, r: seq<World>, n: nat)
    requires s.kind.ByIntent? && WellPosed(s) && History(s, r) && n < |r|
    ensures Distinguishable(s.cfg.lodSizes) ==> forall npc, lod :: IsLod(lod) ==> Tracked(s, r[n], npc, lod)
  {
    hide Initial, Step, WellPosed, Distinguishable;
    if Distinguishable(s.cfg.lodSizes) {
      forall npc, lod | IsLod(lod) ensures Tracked(s, r[n], npc, lod) {
        InFlightExactly(s, r, n, npc, lod);
      }
    }
  }

  // ---- Megabytes of the resident keys ----

  /** Configured megabytes, as the byte size carries them, of a set of keys. */
  ghost function Megabytes(sizes: LodSizes, ks: set<CacheKey>): nat {
    if ks == {} then 0
    else
      var k :| k in ks;
      SizeMb(sizes, k.lod) % 4096 + Megabytes(sizes, ks - {k})
  }

  lemma {:induction false} MegabytesRemove(sizes: LodSizes, ks: set<CacheKey>, k: CacheKey)
    requires k in ks
    ensures Megabytes(sizes, ks) == SizeMb(sizes, k.lod) % 4096 + Megabytes(sizes, ks - {k})
    decreases |ks|
  {
    var j :| j in ks && Megabytes(sizes, ks) == SizeMb(sizes, j.lod) % 4096 + Megabytes(sizes, ks - {j});
    if j != k {
      MegabytesRemove(sizes, ks - {j}, k);
      MegabytesRemove(sizes, ks - {k}, j);
      assert ks - {j} - {k} == ks - {k} - {j};
    }
  }

  lemma {:induction false} BytesAreMegabytes(sizes: LodSizes, m: Entries)
    requires forall k :: k in m ==> Filed(sizes, k, m[k])
    ensures Bytes(m) == Megabytes(sizes, m.Keys) * MB
    decreases |m|
  {
    hide Bytes, Megabytes;
    if m == map[] {
      EmptyCache(sizes, m);
    } else {
      var k :| k in m;
      var mb := SizeMb(sizes, k.lod) % 4096;
      BytesAreMegabytes(sizes, m - {k});
      BytesRemove(m, k);
      MegabytesRemove(sizes, m.Keys, k);
      assert (m - {k}).Keys == m.Keys - {k};
      assert m[k].size == mb * MB;
      MoreMegabytes(mb, Megabytes(sizes, m.Keys - {k}));
    }
  }

  lemma EmptyCache(sizes: LodSizes, m: Entries)
    requires m == map[]
    ensures Bytes(m) == 0 && Megabytes(sizes, m.Keys) == 0
  {
  }

  lemma MoreMegabytes(a: nat, b: nat)
    ensures (a + b) * MB == a * MB + b * MB
  {
  }

  /** In every state of every run of the intent predictor: each resident entry is one of the three levels of
      its NPC, as large as configured, with the distance the NPC had at the last access; below two gigabytes
      the configured megabytes of the resident keys fit the capacity. */
  lemma CacheHoldsWeights(s: Setup, r: seq<World>, n: nat)
    requires s.kind.ByIntent? && WellPosed(s) && History(s, r) && n < |r|
    ensures r[n].pred.Intents?
    ensures var m := r[n].pred.intent.entries;
      && (forall k :: k in m ==>
            && 0 <= k.lod <= 2 && m[k].size == (SizeMb(s.cfg.lodSizes, k.lod) % 4096) * MB
            && Dated(s, k, m[k], r[n].bus.now))
      && (s.kind.capacity < 0x8000_0000 ==> Megabytes(s.cfg.lodSizes, m.Keys) * MB <= s.kind.capacity)
  {
    RunShape(s, r);
    RunCached(s, r, n);
    var m := r[n].pred.intent.entries;
    assert forall k :: k in m ==> Filed(s.cfg.lodSizes, k, m[k]);
    BytesAreMegabytes(s.cfg.lodSizes, m);
    hide Bytes, Megabytes, Tally, Dated, Distinguishable, History;
  }

  /** And with distinguishable sizes every weight transfer that the bus completed is accounted for: the stored
      ones are resident or counted as evictions, the others are the refusals. */
  lemma DeliveriesAccounted(s: Setup, r: seq<World>, n: nat)
    requires s.kind.ByIntent? && WellPosed(s) && Distinguishable(s.cfg.lodSizes) && History(s, r) && n < |r|
    ensures forall i :: 0 <= i < |r| ==> r[i].pred.Intents?
    ensures forall i :: 0 <= i < |r| && Delivers(r[i]) ==> r[i].bus.slot.Some?
    ensures var d, i := Deliveries(s, r, n), r[n].pred.intent;
      && Tally(r[n].bus.log, WeightDone) == d.stored + d.refused
      && i.kpi.evictions == d.stored - |i.entries| && i.kpi.refusals == d.refused
  {
    RunShape(s, r);
    RunCached(s, r, n);
    hide Tally, Stocked, Bytes, History, Deliveries;
  }

  // ---- Core slots ----

  lemma AcquireLength(slots: seq<CoreSlot>, npc: nat, lod: int, endsAt: int)
    ensures var r := Prefetching.AcquireSlot(slots, npc, lod, endsAt); r.Some? ==> |r.value| == |slots|
  {
  }

  lemma {:induction false} ReleaseLength(m: Entries, slots: seq<CoreSlot>, t: int, i: nat)
    ensures |ReleaseFrom(m, slots, t, i).1| == |slots|
    decreases |slots| - i
  {
    if i < |slots| {
      if slots[i].occupied && t >= slots[i].endsAt {
        var slots' := slots[i := slots[i].(occupied := false)];
        ReleaseLength(PinnedLess(m, CK(slots[i].npc, slots[i].lod)), slots', t, i + 1);
      } else {
        ReleaseLength(m, slots, t, i + 1);
      }
    }
  }

  lemma ServeLength(st: Intent, npc: nat, lod: int, v: View, ix: Option<Interaction>, now: Time)
    ensures |Serve(st, npc, lod, v, ix, now).0.slots| == |st.slots|
  {
    hide Prefetching.AcquireSlot, BestResident, Touched, Key, CK;
    if ix.Some? {
      forall actual: int ensures var r := Prefetching.AcquireSlot(st.slots, npc, actual, EndsAt(ix.value));
        r.Some? ==> |r.value| == |st.slots|
      {
        AcquireLength(st.slots, npc, actual, EndsAt(ix.value));
      }
    }
  }

  lemma {:induction false} VisitsLength(ip: IntentConfig, sc: Scene, st: Intent, n: nat, now: Time)
    requires n <= |sc.npcs|
    ensures |VisitNpcs(ip, sc, st, n, now).0.slots| == |st.slots|
  {
    hide Serve, ActiveInteraction;
    if n > 0 {
      VisitsLength(ip, sc, st, n - 1, now);
      var st1, npc := VisitNpcs(ip, sc, st, n - 1, now).0, sc.npcs[n - 1];
      var ix, v := ActiveInteraction(sc.interactions, npc.id, now / 1000), sc.view(npc.id, now / 1000);
      var lod := IntentLod(ip, npc.quest, ix.Some?, sc.stopped(now / 1000), v);
      ServeLength(st1.(lastLod := st1.lastLod[npc.id := lod]), npc.id, lod, v, ix, now);
    }
  }

  /** There is one slot per configured core in every state of every run. */
  lemma {:induction false} SlotsAreCores(s: Setup, r: seq<World>, n: nat)
    requires s.kind.ByIntent? && History(s, r) && n < |r|
    ensures r[n].pred.Intents? && |r[n].pred.intent.slots| == s.kind.cores
  {
    hide Initial, Step;
    if n == 0 {
      InitialPred(s);
    } else {
      SlotsAreCores(s, r, n - 1);
      assert StepsAt(s, r, n - 1);
      StepKeepsSlots(s, r[n - 1], r[n]);
    }
  }

  lemma StepKeepsSlots(s: Setup, w: World, w': World)
    requires s.kind.ByIntent? && w.pred.Intents? && Step(s, w, w')
    ensures w'.pred.Intents? && |w'.pred.intent.slots| == |w.pred.intent.slots|
  {
    StepPred(s, w, w');
    hide Step, VisitNpcs, ReleaseFrom, Decode, KnownLevels, Admits, DeliversWeights;
    if IsTick(w) {
      var st, now := w.pred.intent, w.items[0].when;
      ReleaseLength(st.entries, st.slots, now / 1000, 0);
      VisitsLength(s.kind.ip, s.sc, ReleaseExpired(st, now / 1000), |s.sc.npcs|, now);
    }
  }
}
