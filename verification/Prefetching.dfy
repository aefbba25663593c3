/** The predictors on values: which weights to fetch, and the book-keeping of fetches, residency,
    interactions, core slots and pins. Geometry enters as arbitrary functions of time. */
module Prefetching {
  import opened Base
  import opened Configuration
  import opened LodSelection
  import opened NpuCaches

  // ---- Identity of weights ----

  /** `key`: the NPC number shifted by eight bits, with the low byte of the second number. */
  function Key(npc: nat, low: int): nat {
    npc * 256 + low % 256
  }

  lemma KeyInjective(npc: nat, low: int, npc': nat, low': int)
    ensures Key(npc, low) == Key(npc', low') <==> npc == npc' && low % 256 == low' % 256
  {
  }

  function SizeMb(s: LodSizes, lod: int): int {
    if lod == 0 then s.lod0Mb else if lod == 1 then s.lod1Mb else s.lod2Mb
  }

  const MB: pos := 1024 * 1024

  /** A level travels as the byte size of its weights, a 32-bit product. */
  function Encode(s: LodSizes, lod: int): nat {
    U32(U32(SizeMb(s, lod)) * MB)
  }

  /** What the scheduler makes of the size when the transfer completes. */
  function Decode(s: LodSizes, size: nat): int {
    var mb := size / MB;
    if mb == s.lod0Mb then 0 else if mb == s.lod1Mb then 1 else 2
  }

  predicate IsLod(lod: int) {
    0 <= lod <= 2
  }

  lemma EncodedMegabytes(s: LodSizes, lod: int)
    ensures Encode(s, lod) == (SizeMb(s, lod) % 4096) * MB
    ensures Encode(s, lod) / MB == SizeMb(s, lod) % 4096
  {
    var m := SizeMb(s, lod);
    var u := U32(m);
    assert u % 4096 == m % 4096 by { ModMod(m); }
    assert u * MB == (u / 4096) * 0x1_0000_0000 + (u % 4096) * MB;
    ModOf(u / 4096, (u % 4096) * MB);
    DivExact(m % 4096);
  }

  lemma ModMod(m: int)
    ensures (m % 0x1_0000_0000) % 4096 == m % 4096
  {
    var q := m / 0x1_0000_0000;
    assert m == q * 0x1_0000_0000 + m % 0x1_0000_0000;
    assert m - m % 0x1_0000_0000 == (q * 0x10_0000) * 4096;
  }

  lemma ModOf(k: int, r: int)
    requires 0 <= r < 0x1_0000_0000
    ensures (k * 0x1_0000_0000 + r) % 0x1_0000_0000 == r
  {
  }

  lemma DivExact(n: nat)
    ensures (n * MB) / MB == n
  {
  }

  /** The sizes that can be told apart again. */
  predicate Distinguishable(s: LodSizes) {
    && 0 <= s.lod0Mb < 4096 && 0 <= s.lod1Mb < 4096 && s.lod1Mb != s.lod0Mb
    && s.lod2Mb % 4096 != s.lod0Mb && s.lod2Mb % 4096 != s.lod1Mb
  }

  /** Decoding undoes encoding for all three levels exactly when the sizes are distinguishable. */
  lemma RoundTripIff(s: LodSizes)
    ensures Distinguishable(s) <==> forall lod :: IsLod(lod) ==> Decode(s, Encode(s, lod)) == lod
  {
    DecodesTo(s, 0);
    DecodesTo(s, 1);
    DecodesTo(s, 2);
    hide Encode, Decode;
    ThreeLevels(s);
  }

  /** Decoding looks at the megabytes modulo 4096. */
  lemma DecodesTo(s: LodSizes, lod: int)
    ensures var mb := SizeMb(s, lod) % 4096;
      Decode(s, Encode(s, lod)) == if mb == s.lod0Mb then 0 else if mb == s.lod1Mb then 1 else 2
  {
    EncodedMegabytes(s, lod);
    hide Encode;
  }

  lemma ThreeLevels(s: LodSizes)
    ensures (forall lod :: IsLod(lod) ==> Decode(s, Encode(s, lod)) == lod) <==>
      Decode(s, Encode(s, 0)) == 0 && Decode(s, Encode(s, 1)) == 1 && Decode(s, Encode(s, 2)) == 2
  {
    hide Encode, Decode;
    assert IsLod(0) && IsLod(1) && IsLod(2);
    assert forall lod :: IsLod(lod) ==> lod == 0 || lod == 1 || lod == 2;
  }

  lemma EncodeInjective(s: LodSizes, a: int, b: int)
    requires Distinguishable(s) && IsLod(a) && IsLod(b)
    ensures Encode(s, a) == Encode(s, b) <==> a == b
    ensures Decode(s, Encode(s, a)) == a
  {
    RoundTripIff(s);
  }

  // ---- The scenario as the predictors see it ----

  datatype View = View(distance: real, inFrustum: bool, approaching: bool)

  datatype Npc = Npc(id: nat, quest: bool)

  datatype Interaction = Interaction(atMs: int, npc: nat, durationMs: int)

  datatype Scene = Scene(durationMs: int, npcs: seq<Npc>, interactions: seq<Interaction>,
                         view: (nat, int) -> View, stopped: int -> bool)

  datatype IntentConfig = IntentConfig(closeM: int, nearM: int, visibleM: int, stoppedDist: real)

  function EndsAt(ix: Interaction): int {
    ix.atMs + ix.durationMs
  }

  predicate ActiveAt(ix: Interaction, npc: nat, t: int) {
    ix.npc == npc && ix.atMs <= t < EndsAt(ix)
  }

  /** The first listed interaction of `npc` whose window contains `t`. */
  function ActiveInteraction(ixs: seq<Interaction>, npc: nat, t: int): Option<Interaction> {
    if ixs == [] then None
    else if ActiveAt(ixs[0], npc, t) then Some(ixs[0])
    else ActiveInteraction(ixs[1..], npc, t)
  }

  /** The cascade of `IntentPredictor::select_lod`. */
  function IntentLod(ip: IntentConfig, quest: bool, interacting: bool, stopped: bool, v: View): (lod: int)
    ensures -1 <= lod <= 2
    ensures interacting ==> lod == 0
  {
    if quest || interacting then 0
    else if stopped && v.inFrustum && v.distance <= ip.stoppedDist then 0
    else if v.inFrustum && v.distance <= ip.closeM as real then 1
    else if v.inFrustum && v.distance <= ip.nearM as real && v.approaching then 1
    else if v.inFrustum && v.distance <= ip.nearM as real then 2
    else if v.distance <= ip.visibleM as real then 2
    else -1
  }

  /** Detail as a rank: level 0 first, nothing last. */
  function Rank(lod: int): int {
    if lod < 0 then 3 else lod
  }

  /** The rules that grant a level, in no particular order. */
  predicate Grants(ip: IntentConfig, quest: bool, interacting: bool, stopped: bool, v: View, lod: int) {
    match lod
    case 0 => quest || interacting || (stopped && v.inFrustum && v.distance <= ip.stoppedDist)
    case 1 => v.inFrustum && (v.distance <= ip.closeM as real || (v.approaching && v.distance <= ip.nearM as real))
    case 2 => (v.inFrustum && v.distance <= ip.nearM as real) || v.distance <= ip.visibleM as real
    case _ => false
  }

  /** The cascade takes the finest level that any rule grants, and none exactly when no rule does. */
  lemma LevelIsFinest(ip: IntentConfig, quest: bool, interacting: bool, stopped: bool, v: View)
    ensures var r := IntentLod(ip, quest, interacting, stopped, v);
      && (r < 0 <==> forall lod :: !Grants(ip, quest, interacting, stopped, v, lod))
      && (r >= 0 ==> Grants(ip, quest, interacting, stopped, v, r))
      && (forall lod :: Grants(ip, quest, interacting, stopped, v, lod) ==> r <= lod)
  {
    var r := IntentLod(ip, quest, interacting, stopped, v);
    assert r >= 0 ==> Grants(ip, quest, interacting, stopped, v, r);
    forall lod | Grants(ip, quest, interacting, stopped, v, lod) ensures 0 <= r <= lod {
    }
  }

  /** Coming closer, into view or towards the player never costs detail, whatever the thresholds are. */
  lemma CloserIsFiner(ip: IntentConfig, quest: bool, interacting: bool, stopped: bool, v: View, v': View)
    requires v.distance <= v'.distance && (v'.inFrustum ==> v.inFrustum) && (v'.approaching ==> v.approaching)
    ensures Rank(IntentLod(ip, quest, interacting, stopped, v)) <= Rank(IntentLod(ip, quest, interacting, stopped, v'))
  {
  }

  // ---- State of the intent predictor ----

  datatype CoreSlot = CoreSlot(occupied: bool, npc: nat, lod: int, endsAt: int)

  datatype PredictorKpi = PredictorKpi(hits: nat, misses: nat, evictions: nat, refusals: nat,
                                       degradations: nat, noWeight: nat, saturations: nat)

  datatype Intent = Intent(entries: Entries, lastLod: map<nat, int>, inFlight: set<nat>, handled: set<nat>,
                           slots: seq<CoreSlot>, kpi: PredictorKpi)

  function NoSlots(cores: nat): seq<CoreSlot> {
    seq(cores, _ => CoreSlot(false, 0, 0, 0))
  }

  /** The intent predictor as constructed. */
  function FreshIntent(cores: nat): Intent {
    Intent(map[], map[], {}, {}, NoSlots(cores), PredictorKpi(0, 0, 0, 0, 0, 0, 0))
  }

  function CK(npc: nat, lod: int): CacheKey {
    CacheKey(npc, lod % 256)
  }

  /** The best level at `lod` or coarser that is resident, or -1. */
  function BestResident(m: Entries, npc: nat, lod: int): int
    decreases 3 - lod
  {
    if lod > 2 then -1
    else if CK(npc, lod) in m then lod
    else BestResident(m, npc, lod + 1)
  }

  /** Index of the first occupied slot of `npc` at or after `i`. */
  function SlotOf(slots: seq<CoreSlot>, npc: nat, i: nat): nat
    decreases |slots| - i
  {
    if i >= |slots| || (slots[i].occupied && slots[i].npc == npc) then i else SlotOf(slots, npc, i + 1)
  }

  function FreeSlot(slots: seq<CoreSlot>, i: nat): nat
    decreases |slots| - i
  {
    if i >= |slots| || !slots[i].occupied then i else FreeSlot(slots, i + 1)
  }

  predicate HoldsSlot(slots: seq<CoreSlot>, npc: nat) {
    SlotOf(slots, npc, 0) < |slots|
  }

  /** Re-use the slot of `npc`, or take a free one, or fail. */
  function AcquireSlot(slots: seq<CoreSlot>, npc: nat, lod: int, endsAt: int): Option<seq<CoreSlot>> {
    var i := SlotOf(slots, npc, 0);
    if i < |slots| then Some(slots[i := slots[i].(lod := lod, endsAt := Max(slots[i].endsAt, endsAt))])
    else
      var j := FreeSlot(slots, 0);
      if j < |slots| then Some(slots[j := CoreSlot(true, npc, lod, endsAt)]) else None
  }

  /** Free the slots from `i` on whose interaction is over, unpinning their weights. */
  function ReleaseFrom(m: Entries, slots: seq<CoreSlot>, t: int, i: nat): (Entries, seq<CoreSlot>)
    decreases |slots| - i
  {
    if i >= |slots| then (m, slots)
    else if slots[i].occupied && t >= slots[i].endsAt then
      ReleaseFrom(PinnedLess(m, CK(slots[i].npc, slots[i].lod)), slots[i := slots[i].(occupied := false)], t, i + 1)
    else ReleaseFrom(m, slots, t, i + 1)
  }

  function ReleaseExpired(st: Intent, t: int): Intent {
    var (m, slots) := ReleaseFrom(st.entries, st.slots, t, 0);
    st.(entries := m, slots := slots)
  }

  /** `handle_interaction`. */
  function HandleInteraction(st: Intent, npc: nat, distance: real, desired: int, endsAt: int, now: Time): Intent {
    var actual := BestResident(st.entries, npc, desired);
    var k := st.kpi;
    if actual < 0 then
      st.(kpi := k.(degradations := k.degradations + 1, noWeight := k.noWeight + 1, misses := k.misses + 1))
    else
      var k1 := if actual != desired then k.(degradations := k.degradations + 1, misses := k.misses + 1)
                else k.(hits := k.hits + 1);
      match AcquireSlot(st.slots, npc, actual, endsAt)
      case None => st.(kpi := k1.(saturations := k1.saturations + 1))
      case Some(slots) =>
        st.(kpi := k1, slots := slots,
            entries := Touched(PinnedMore(st.entries, CK(npc, actual)), CK(npc, actual), now, distance))
  }

  /** A level was chosen for `npc`: refresh it, serve a new interaction, decide whether to fetch. */
  function Serve(st: Intent, npc: nat, lod: int, v: View, ix: Option<Interaction>, now: Time): (Intent, bool) {
    var st1 := st.(entries := Touched(st.entries, CK(npc, lod), now, v.distance));
    var st2 :=
      if ix.Some? && Key(npc, ix.value.atMs) !in st1.handled then
        HandleInteraction(st1.(handled := st1.handled + {Key(npc, ix.value.atMs)}),
                          npc, v.distance, lod, EndsAt(ix.value), now)
      else st1;
    if Key(npc, lod) in st2.inFlight || CK(npc, lod) in st2.entries then (st2, false)
    else (st2.(inFlight := st2.inFlight + {Key(npc, lod)}), true)
  }

  /** One NPC of a tick; the second component is the level to fetch, if any. */
  function VisitNpc(ip: IntentConfig, sc: Scene, st: Intent, npc: Npc, now: Time): (Intent, Option<int>) {
    var t := now / 1000;
    var v := sc.view(npc.id, t);
    var ix := ActiveInteraction(sc.interactions, npc.id, t);
    var lod := IntentLod(ip, npc.quest, ix.Some?, sc.stopped(t), v);
    var st1 := st.(lastLod := st.lastLod[npc.id := lod]);
    if lod < 0 then (st1, None)
    else
      var (st2, fetch) := Serve(st1, npc.id, lod, v, ix, now);
      (st2, if fetch then Some(lod) else None)
  }

  datatype Request = Request(npc: nat, lod: int)

  /** Only levels that have weights are asked for; `schedule_prefetch` throws at any other. */
  predicate AllLevels(rs: seq<Request>) {
    forall i :: 0 <= i < |rs| ==> IsLod(rs[i].lod)
  }

  /** The first `n` NPCs of a tick, with the fetches they ask for. */
  function VisitNpcs(ip: IntentConfig, sc: Scene, st: Intent, n: nat, now: Time): (Intent, seq<Request>)
    requires n <= |sc.npcs|
  {
    if n == 0 then (st, [])
    else
      var (st1, rs) := VisitNpcs(ip, sc, st, n - 1, now);
      var (st2, r) := VisitNpc(ip, sc, st1, sc.npcs[n - 1], now);
      (st2, if r.Some? then rs + [Request(sc.npcs[n - 1].id, r.value)] else rs)
  }

  /** `IntentPredictor::tick`, up to re-arming. */
  function IntentTick(ip: IntentConfig, sc: Scene, st: Intent, now: Time): (Intent, seq<Request>) {
    VisitNpcs(ip, sc, ReleaseExpired(st, now / 1000), |sc.npcs|, now)
  }

  /** `IntentPredictor::on_complete`: a relation, because ties between victims are the hash map's choice. */
  ghost predicate IntentComplete(sizes: LodSizes, capacity: Word, sc: Scene, st: Intent, npc: nat, lod: int,
                                 distance: real, now: Time, st': Intent) {
    exists r: Admission ::
      && Admits(capacity, st.entries, CacheEntry(CK(npc, lod), Encode(sizes, lod), now, distance, 0), st'.entries, r)
      && st' == st.(inFlight := st.inFlight - {Key(npc, lod)}, entries := st'.entries,
                    kpi := st.kpi.(evictions := st.kpi.evictions + |r.evicted|,
                                   refusals := st.kpi.refusals + if r.accepted then 0 else 1))
  }

  // ---- State of the distance predictor ----

  datatype Distance = Distance(lastLod: map<nat, int>, inFlight: set<nat>, resident: set<nat>)

  function VisitByDistance(bands: seq<Band>, pct: nat, sc: Scene, st: Distance, npc: Npc, now: Time)
    : (Distance, Option<int>)
  {
    var prev := if npc.id in st.lastLod then st.lastLod[npc.id] else COLD;
    var lod := Select(bands, pct, sc.view(npc.id, now / 1000).distance, prev);
    var st1 := st.(lastLod := st.lastLod[npc.id := lod]);
    if lod < 0 || Key(npc.id, lod) in st.inFlight || Key(npc.id, lod) in st.resident then (st1, None)
    else (st1.(inFlight := st.inFlight + {Key(npc.id, lod)}), Some(lod))
  }

  function VisitAllByDistance(bands: seq<Band>, pct: nat, sc: Scene, st: Distance, n: nat, now: Time)
    : (Distance, seq<Request>)
    requires n <= |sc.npcs|
  {
    if n == 0 then (st, [])
    else
      var (st1, rs) := VisitAllByDistance(bands, pct, sc, st, n - 1, now);
      var (st2, r) := VisitByDistance(bands, pct, sc, st1, sc.npcs[n - 1], now);
      (st2, if r.Some? then rs + [Request(sc.npcs[n - 1].id, r.value)] else rs)
  }

  function DistanceComplete(st: Distance, npc: nat, lod: int): Distance {
    st.(inFlight := st.inFlight - {Key(npc, lod)}, resident := st.resident + {Key(npc, lod)})
  }
}
