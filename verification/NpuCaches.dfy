/** The bounded weight cache: greedy eviction with pinning, against its sorted specification. */
module NpuCaches {
  import opened Base

  datatype CacheKey = CacheKey(npc: nat, lod: nat)

  datatype CacheEntry = CacheEntry(key: CacheKey, size: nat, lastAccess: Time, distance: real, pins: nat)

  type Entries = map<CacheKey, CacheEntry>

  // ---- Bytes held ----

  ghost function Bytes(m: Entries): nat {
    if m == map[] then 0
    else
      var k :| k in m;
      m[k].size + Bytes(m - {k})
  }

  lemma {:induction false} BytesRemove(m: Entries, k: CacheKey)
    requires k in m
    ensures Bytes(m) == m[k].size + Bytes(m - {k})
    decreases |m|
  {
    var j :| j in m && Bytes(m) == m[j].size + Bytes(m - {j});
    if j != k {
      BytesRemove(m - {j}, k);
      BytesRemove(m - {k}, j);
      assert m - {j} - {k} == m - {k} - {j};
    }
  }

  lemma BytesAdd(m: Entries, k: CacheKey, e: CacheEntry)
    requires k !in m
    ensures Bytes(m[k := e]) == Bytes(m) + e.size
  {
    BytesRemove(m[k := e], k);
    assert m[k := e] - {k} == m;
  }

  /** Replacing an entry by one of the same size leaves the total alone. */
  lemma BytesUpdate(m: Entries, k: CacheKey, e: CacheEntry)
    requires k in m && e.size == m[k].size
    ensures Bytes(m[k := e]) == Bytes(m)
  {
    BytesRemove(m, k);
    BytesRemove(m[k := e], k);
    assert m[k := e] - {k} == m - {k};
  }

  function Pinned(m: Entries): Entries {
    map k | k in m && m[k].pins > 0 :: m[k]
  }

  ghost function Unpinned(m: Entries): set<CacheKey> {
    set k | k in m && m[k].pins == 0
  }

  lemma {:induction false} BytesPinned(m: Entries)
    ensures Bytes(Pinned(m)) <= Bytes(m)
    decreases |m|
  {
    if m != map[] {
      var k :| k in m;
      BytesPinned(m - {k});
      BytesRemove(m, k);
      if m[k].pins > 0 {
        BytesRemove(Pinned(m), k);
        assert Pinned(m) - {k} == Pinned(m - {k});
      } else {
        assert Pinned(m) == Pinned(m - {k});
      }
    }
  }

  // ---- Eviction order ----

  /** `a` goes before `b`: farther away, or as far and not used for longer. */
  predicate Worse(a: CacheEntry, b: CacheEntry) {
    a.distance > b.distance || (a.distance == b.distance && a.lastAccess < b.lastAccess)
  }

  /** All unpinned keys, each once, worst first. Ties may come in any order. */
  ghost predicate SortedOut(m: Entries, s: seq<CacheKey>) {
    && (forall i :: 0 <= i < |s| ==> s[i] in m && m[s[i]].pins == 0)
    && (forall k :: k in m && m[k].pins == 0 ==> k in s)
    && (forall i, j :: 0 <= i < j < |s| ==> s[i] != s[j] && !Worse(m[s[j]], m[s[i]]))
  }

  ghost predicate WorstOf(m: Entries, k: CacheKey) {
    k in m && m[k].pins == 0 && forall j :: j in m && m[j].pins == 0 ==> !Worse(m[j], m[k])
  }

  function Keys(s: seq<CacheKey>): set<CacheKey> {
    set k | k in s
  }

  /** Each key was the worst unpinned one when it left. */
  ghost predicate Greedy(m: Entries, s: seq<CacheKey>) {
    s == [] || (WorstOf(m, s[0]) && Greedy(m - {s[0]}, s[1..]))
  }

  lemma {:induction false} WorstExists(m: Entries)
    requires Unpinned(m) != {}
    ensures exists k :: WorstOf(m, k)
    decreases |m|
  {
    var k :| k in Unpinned(m);
    var rest := m - {k};
    if Unpinned(rest) == {} {
      assert forall j :: j in m && m[j].pins == 0 ==> j == k || j in Unpinned(rest);
      assert WorstOf(m, k);
    } else {
      WorstExists(rest);
      var w :| WorstOf(rest, w);
      assert forall j :: j in m && m[j].pins == 0 ==> j == k || j in rest;
      assert WorstOf(m, if Worse(m[k], m[w]) then k else w);
    }
  }

  lemma {:induction false} SortedExists(m: Entries)
    ensures exists s :: SortedOut(m, s)
    decreases |m|
  {
    if Unpinned(m) == {} {
      assert forall k :: k in m && m[k].pins == 0 ==> k in Unpinned(m);
      assert SortedOut(m, []);
    } else {
      WorstExists(m);
      var w :| WorstOf(m, w);
      SortedExists(m - {w});
      var s :| SortedOut(m - {w}, s);
      SortedPrepend(m, w, s);
    }
  }

  lemma SortedPrepend(m: Entries, w: CacheKey, s: seq<CacheKey>)
    requires WorstOf(m, w) && SortedOut(m - {w}, s)
    ensures SortedOut(m, [w] + s)
  {
    forall k | k in m && m[k].pins == 0 ensures k in [w] + s {
      assert k == w || k in m - {w};
    }
  }

  /** A greedy eviction list is a prefix of a sorted list of all unpinned keys. */
  lemma {:induction false} GreedyIsSorted(m: Entries, s: seq<CacheKey>)
    requires Greedy(m, s)
    ensures exists t :: SortedOut(m, t) && s <= t
    decreases |s|
  {
    if s == [] {
      SortedExists(m);
    } else {
      GreedyIsSorted(m - {s[0]}, s[1..]);
      var t :| SortedOut(m - {s[0]}, t) && s[1..] <= t;
      SortedPrepend(m, s[0], t);
      assert s == [s[0]] + s[1..] && s <= [s[0]] + t;
    }
  }

  lemma {:induction false} GreedyAppend(m: Entries, s: seq<CacheKey>, k: CacheKey)
    requires Greedy(m, s) && WorstOf(m - Keys(s), k)
    ensures Greedy(m, s + [k])
    decreases |s|
  {
    if s == [] {
      assert m - Keys(s) == m;
    } else {
      assert m - {s[0]} - Keys(s[1..]) == m - Keys(s) by {
        assert Keys(s) == {s[0]} + Keys(s[1..]);
      }
      GreedyAppend(m - {s[0]}, s[1..], k);
      assert (s + [k])[1..] == s[1..] + [k];
    }
  }

  lemma {:induction false} GreedyKeepsPinned(m: Entries, s: seq<CacheKey>)
    requires Greedy(m, s)
    ensures forall k :: k in s ==> k in m && m[k].pins == 0
    decreases |s|
  {
    if s != [] {
      GreedyKeepsPinned(m - {s[0]}, s[1..]);
      assert s == [s[0]] + s[1..];
    }
  }

  // ---- Admission ----

  /** The loop guard of `admit`, whose sum wraps at 32 bits. */
  predicate OverFull(capacity: Word, used: nat, size: nat) {
    U32(used + size) > capacity
  }

  /** With the entries `m` the guard asks for another eviction before `size` more bytes come in. */
  ghost predicate Crowded(capacity: Word, m: Entries, size: nat) {
    OverFull(capacity, U32(Bytes(m)), size)
  }

  /** No proper prefix of `s` frees enough. */
  ghost predicate TooFew(capacity: Word, m: Entries, s: seq<CacheKey>, size: nat) {
    forall n :: 0 <= n < |s| ==> Crowded(capacity, m - Keys(s[..n]), size)
  }

  datatype Admission = Admission(accepted: bool, evicted: seq<CacheKey>)

  /** The specification of `admit` for a key that is not resident and could fit: evicts the shortest
      sufficient prefix of a sorted list of the unpinned entries, or, in vain, all of them. */
  ghost predicate Makes(capacity: Word, m: Entries, e: CacheEntry, m': Entries, r: Admission) {
    && (exists t :: SortedOut(m, t) && r.evicted <= t && (!r.accepted ==> r.evicted == t))
    && TooFew(capacity, m, r.evicted, e.size)
    && (r.accepted <==> !Crowded(capacity, m - Keys(r.evicted), e.size))
    && m' == (if r.accepted then (m - Keys(r.evicted))[e.key := e] else m - Keys(r.evicted))
  }

  ghost predicate Admits(capacity: Word, m: Entries, e: CacheEntry, m': Entries, r: Admission) {
    if e.key in m then
      m' == m[e.key := m[e.key].(lastAccess := e.lastAccess, distance := e.distance)] && r == Admission(true, [])
    else if e.size > capacity then
      m' == m && r == Admission(false, [])
    else Makes(capacity, m, e, m', r)
  }

  ghost predicate KeysMatch(m: Entries) {
    forall k :: k in m ==> m[k].key == k
  }

  /** What any admission preserves: pinned entries stay as pinned as they were, and a key becomes
      resident only by being admitted. */
  lemma AdmitKeepsPins(capacity: Word, m: Entries, e: CacheEntry, m': Entries, r: Admission)
    requires Admits(capacity, m, e, m', r)
    ensures forall k :: k in m && m[k].pins > 0 ==> k in m' && m'[k].pins == m[k].pins
    ensures forall k :: k in m' ==> k in m || (k == e.key && r.accepted && m'[k] == e)
    ensures forall k :: k in m' && k in m ==> m'[k].pins == m[k].pins && m'[k].size == m[k].size
    ensures r.accepted ==> e.key in m'
  {
    if e.key !in m && e.size <= capacity {
      var t :| SortedOut(m, t) && r.evicted <= t;
      assert forall k :: k in r.evicted ==> k in t && k in m && m[k].pins == 0;
    }
  }

  /** Who goes and who stays: an unpinned entry that survives an admission is nearer than any evicted one, or
      as near and not used less recently. */
  lemma EvictsFarthest(capacity: Word, m: Entries, e: CacheEntry, m': Entries, r: Admission,
                       gone: CacheKey, kept: CacheKey)
    requires Makes(capacity, m, e, m', r) && e.key !in m
    requires gone in r.evicted && kept in m && kept in m' && m[kept].pins == 0
    ensures gone in m && m[gone].pins == 0 && gone !in m'
    ensures m[kept].distance < m[gone].distance ||
      (m[kept].distance == m[gone].distance && m[gone].lastAccess <= m[kept].lastAccess)
  {
    var t :| SortedOut(m, t) && r.evicted <= t && (!r.accepted ==> r.evicted == t);
    assert kept in t && kept !in r.evicted && gone in t;
    var i :| 0 <= i < |r.evicted| && r.evicted[i] == gone;
    var j :| 0 <= j < |t| && t[j] == kept;
    assert j >= |r.evicted| && t[i] == gone;
  }

  // ---- Below two gigabytes the guard is exact ----

  /** The guard is right for every fill level exactly while the capacity is below two gigabytes. */
  lemma GuardExactIff(capacity: Word)
    ensures capacity < 0x8000_0000 <==>
      forall used: nat, size: nat :: used <= capacity && size <= capacity ==>
        (OverFull(capacity, used, size) <==> used + size > capacity)
  {
    if capacity >= 0x8000_0000 {
      assert !OverFull(capacity, capacity, capacity);
    }
  }

  lemma CrowdedExactly(capacity: Word, m: Entries, size: nat)
    requires capacity < 0x8000_0000 && Bytes(m) <= capacity && size <= capacity
    ensures Crowded(capacity, m, size) <==> Bytes(m) + size > capacity
  {
    GuardExactIff(capacity);
  }

  lemma {:induction false} BytesFewer(m: Entries, ks: set<CacheKey>)
    ensures Bytes(m - ks) <= Bytes(m)
    decreases |ks|
  {
    if ks == {} {
      assert m - ks == m;
    } else {
      var k :| k in ks;
      BytesFewer(m, ks - {k});
      var rest := m - (ks - {k});
      assert m - ks == rest - {k};
      if k in rest {
        BytesRemove(rest, k);
      } else {
        assert rest - {k} == rest;
      }
    }
  }

  /** What is left when a list of all unpinned keys has gone. */
  lemma OnlyPinnedLeft(m: Entries, t: seq<CacheKey>)
    requires SortedOut(m, t)
    ensures m - Keys(t) == Pinned(m)
  {
  }

  /** The eviction list `s` is just long enough for `size` more bytes, in plain arithmetic. */
  ghost predicate JustEnough(capacity: Word, m: Entries, s: seq<CacheKey>, size: nat) {
    && Bytes(m - Keys(s)) + size <= capacity
    && forall n :: 0 <= n < |s| ==> Bytes(m - Keys(s[..n])) + size > capacity
  }

  /** Below two gigabytes: accepted exactly when the pinned bytes leave room, after evicting the shortest
      sufficient prefix of the unpinned entries; refused with exactly the pinned entries left. */
  lemma AdmitExactly(capacity: Word, m: Entries, e: CacheEntry, m': Entries, r: Admission)
    requires Makes(capacity, m, e, m', r)
    requires capacity < 0x8000_0000 && Bytes(m) <= capacity && e.size <= capacity
    ensures r.accepted <==> Bytes(Pinned(m)) + e.size <= capacity
    ensures r.accepted ==> JustEnough(capacity, m, r.evicted, e.size)
    ensures !r.accepted ==> m' == Pinned(m)
  {
    var t :| SortedOut(m, t) && r.evicted <= t && (!r.accepted ==> r.evicted == t);
    forall n | 0 <= n <= |r.evicted|
      ensures Crowded(capacity, m - Keys(r.evicted[..n]), e.size) <==>
        Bytes(m - Keys(r.evicted[..n])) + e.size > capacity
    {
      BytesFewer(m, Keys(r.evicted[..n]));
      CrowdedExactly(capacity, m - Keys(r.evicted[..n]), e.size);
    }
    assert r.evicted[..|r.evicted|] == r.evicted;
    OnlyPinnedLeft(m, t);
    if r.accepted {
      assert forall k :: k in r.evicted ==> k in t;
      BytesPinned(m - Keys(r.evicted));
      assert Pinned(m - Keys(r.evicted)) == Pinned(m);
    }
  }

  /** Below two gigabytes no admission exceeds the capacity. */
  lemma AdmitBytes(capacity: Word, m: Entries, e: CacheEntry, m': Entries, r: Admission)
    requires Admits(capacity, m, e, m', r) && Bytes(m) <= capacity < 0x8000_0000
    ensures Bytes(m') <= capacity
  {
    if e.key in m {
      BytesUpdate(m, e.key, m[e.key].(lastAccess := e.lastAccess, distance := e.distance));
    } else if e.size <= capacity {
      AdmitExactly(capacity, m, e, m', r);
      if r.accepted {
        BytesAdd(m - Keys(r.evicted), e.key, e);
      } else {
        BytesPinned(m);
      }
    }
  }

  /** From two gigabytes on the sum wraps: two entries as large as the whole cache are held at once. */
  lemma WrapOverfills(capacity: Word, a: CacheKey, b: CacheKey)
    requires 0x8000_0000 <= capacity && a != b
    ensures var m := map[a := CacheEntry(a, capacity, 0, 0.0, 0)];
      var e := CacheEntry(b, capacity, 0, 0.0, 0);
      && Bytes(m) <= capacity && Admits(capacity, m, e, m[b := e], Admission(true, []))
      && Bytes(m[b := e]) > capacity
  {
    var m := map[a := CacheEntry(a, capacity, 0, 0.0, 0)];
    var e := CacheEntry(b, capacity, 0, 0.0, 0);
    BytesRemove(m, a);
    assert m - {a} == map[];
    BytesAdd(m, b, e);
    SortedExists(m);
    var t :| SortedOut(m, t);
    assert [] <= t && m - Keys([]) == m;
    assert Makes(capacity, m, e, m[b := e], Admission(true, []));
  }

  /** When no two unpinned entries tie, the specification leaves no choice. */
  lemma {:induction false} SortedUnique(m: Entries, s: seq<CacheKey>, t: seq<CacheKey>)
    requires SortedOut(m, s) && SortedOut(m, t)
    requires forall j, k :: j in m && k in m && j != k && m[j].pins == 0 && m[k].pins == 0 ==>
      Worse(m[j], m[k]) || Worse(m[k], m[j])
    ensures s == t
    decreases |s|
  {
    SortedEmpty(m, s);
    SortedEmpty(m, t);
    if s != [] {
      SortedHead(m, s);
      SortedHead(m, t);
      SortedTail(m, s);
      SortedTail(m, t);
      hide SortedOut;
      assert s[0] == t[0];
      SortedUnique(m - {s[0]}, s[1..], t[1..]);
      assert s == [s[0]] + s[1..] && t == [t[0]] + t[1..];
    }
  }

  lemma SortedHead(m: Entries, s: seq<CacheKey>)
    requires SortedOut(m, s) && s != []
    ensures WorstOf(m, s[0])
  {
    forall j | j in m && m[j].pins == 0 ensures !Worse(m[j], m[s[0]]) {
      assert j in s;
    }
  }

  lemma SortedEmpty(m: Entries, s: seq<CacheKey>)
    requires SortedOut(m, s)
    ensures s == [] <==> Unpinned(m) == {}
  {
    if s != [] {
      assert s[0] in Unpinned(m);
    }
  }

  lemma SortedTail(m: Entries, s: seq<CacheKey>)
    requires SortedOut(m, s) && s != []
    ensures SortedOut(m - {s[0]}, s[1..])
  {
    forall k | k in m - {s[0]} && m[k].pins == 0 ensures k in s[1..] {
      assert k in s;
    }
  }

  // ---- The cache object ----

  /** `DistanceLruPolicy::pick_victim`: a scan with a running worst. */
  method PickVictim(evictable: seq<CacheEntry>) returns (victim: Option<CacheKey>)
    ensures victim.None? <==> evictable == []
    ensures victim.Some? ==> exists i ::
      && 0 <= i < |evictable| && evictable[i].key == victim.value
      && forall j :: 0 <= j < |evictable| ==> !Worse(evictable[j], evictable[i])
  {
    if evictable == [] {
      return None;
    }
    var worst := evictable[0];
    ghost var at := 0;
    for i := 0 to |evictable|
      invariant 0 <= at < |evictable| && worst == evictable[at]
      invariant forall j :: 0 <= j < i ==> !Worse(evictable[j], worst)
    {
      if evictable[i].distance > worst.distance {
        worst, at := evictable[i], i;
      } else if evictable[i].distance == worst.distance && evictable[i].lastAccess < worst.lastAccess {
        worst, at := evictable[i], i;
      }
    }
    victim := Some(worst.key);
  }

  class NpuCache {
    const capacity: Word
    var bytesUsed: Word
    var entries: Entries

    ghost predicate Valid()
      reads this
    {
      KeysMatch(entries) && bytesUsed == U32(Bytes(entries))
    }

    constructor (capacity: Word)
      ensures Valid() && entries == map[] && this.capacity == capacity
    {
      this.capacity, this.bytesUsed, this.entries := capacity, 0, map[];
    }

    /** The unpinned entries, in whatever order the hash map yields them. */
    method Evictable() returns (s: seq<CacheEntry>)
      requires Valid()
      ensures forall e :: e in s <==> e.key in entries && entries[e.key] == e && e.pins == 0
    {
      s := [];
      var left := entries.Keys;
      while left != {}
        invariant left <= entries.Keys
        invariant forall e :: e in s <==> e.key in entries && e.key !in left && entries[e.key] == e && e.pins == 0
        decreases left
      {
        var k :| k in left;
        left := left - {k};
        if entries[k].pins == 0 {
          s := s + [entries[k]];
        }
      }
    }

    method Admit(key: CacheKey, size: nat, now: Time, distance: real) returns (r: Admission)
      requires Valid()
      modifies this
      ensures Valid()
      ensures Admits(capacity, old(entries), CacheEntry(key, size, now, distance, 0), entries, r)
    {
      var e := CacheEntry(key, size, now, distance, 0);
      if key in entries {
        BytesUpdate(entries, key, entries[key].(lastAccess := now, distance := distance));
        entries := entries[key := entries[key].(lastAccess := now, distance := distance)];
        return Admission(true, []);
      }
      if size > capacity {
        return Admission(false, []);
      }
      ghost var start := entries;
      var room, evicted := MakeRoom(size);
      if !room {
        Refused(capacity, start, evicted, e);
        return Admission(false, evicted);
      }
      GreedyKeepsPinned(start, evicted);
      Accepted(capacity, start, evicted, e);
      BytesAdd(entries, key, e);
      WordPlus(Bytes(entries), size);
      entries := entries[key := e];
      bytesUsed := U32(bytesUsed + size);
      r := Admission(true, evicted);
    }

    method Erase(key: CacheKey)
      requires Valid() && key in entries
      modifies this
      ensures Valid() && entries == old(entries) - {key}
    {
      BytesRemove(entries, key);
      WordMinus(Bytes(entries), entries[key].size);
      bytesUsed := U32(bytesUsed - entries[key].size);
      entries := entries - {key};
    }

    /** The eviction loop of `admit`. */
    method MakeRoom(size: nat) returns (room: bool, evicted: seq<CacheKey>)
      requires Valid() && size <= capacity
      modifies this
      ensures Valid() && entries == old(entries) - Keys(evicted)
      ensures Greedy(old(entries), evicted) && TooFew(capacity, old(entries), evicted, size)
      ensures room <==> !Crowded(capacity, entries, size)
      ensures !room ==> Unpinned(entries) == {}
    {
      evicted := [];
      NothingEvicted(capacity, entries, size);
      hide Greedy, TooFew, WorstOf, Worse, Bytes, Keys, Unpinned, OverFull;
      while OverFull(capacity, bytesUsed, size)
        invariant Valid() && entries == old(entries) - Keys(evicted)
        invariant Greedy(old(entries), evicted) && TooFew(capacity, old(entries), evicted, size)
        decreases |entries|
      {
        var evictable := Evictable();
        var victim := PickVictim(evictable);
        if victim.None? {
          NoneEvictable(entries, evictable);
          return false, evicted;
        }
        VictimIsWorst(entries, evictable, victim.value);
        WorstIsResident(entries, victim.value);
        EvictStep(capacity, old(entries), evicted, victim.value, size);
        Erase(victim.value);
        evicted := evicted + [victim.value];
      }
      room := true;
    }

    method Touch(key: CacheKey, now: Time, distance: real)
      requires Valid()
      modifies this
      ensures Valid() && entries == Touched(old(entries), key, now, distance)
    {
      if key in entries {
        BytesUpdate(entries, key, entries[key].(lastAccess := now, distance := distance));
        entries := entries[key := entries[key].(lastAccess := now, distance := distance)];
      }
    }

    method Pin(key: CacheKey) returns (ok: bool)
      requires Valid()
      modifies this
      ensures Valid() && entries == PinnedMore(old(entries), key) && (ok <==> key in old(entries))
    {
      if key !in entries {
        return false;
      }
      BytesUpdate(entries, key, entries[key].(pins := entries[key].pins + 1));
      entries := entries[key := entries[key].(pins := entries[key].pins + 1)];
      ok := true;
    }

    method Unpin(key: CacheKey) returns (ok: bool)
      requires Valid()
      modifies this
      ensures Valid() && entries == PinnedLess(old(entries), key)
      ensures ok <==> key in old(entries) && old(entries)[key].pins > 0
    {
      if key !in entries || entries[key].pins == 0 {
        return false;
      }
      BytesUpdate(entries, key, entries[key].(pins := entries[key].pins - 1));
      entries := entries[key := entries[key].(pins := entries[key].pins - 1)];
      ok := true;
    }
  }

  /** Subtraction of a wrapped counter is wrapped subtraction. */
  lemma WordMinus(b: nat, s: nat)
    ensures U32(U32(b) - s) == U32(b - s)
  {
    var q := b / 0x1_0000_0000;
    assert b - s == q * 0x1_0000_0000 + (U32(b) - s);
    AddWords(q, U32(b) - s);
  }

  lemma WordPlus(b: nat, s: nat)
    ensures U32(U32(b) + s) == U32(b + s)
  {
    var q := b / 0x1_0000_0000;
    assert b + s == q * 0x1_0000_0000 + (U32(b) + s);
    AddWords(q, U32(b) + s);
  }

  lemma AddWords(q: int, n: int)
    ensures U32(q * 0x1_0000_0000 + n) == U32(n)
  {
  }

  function Touched(m: Entries, k: CacheKey, now: Time, distance: real): Entries {
    if k in m then m[k := m[k].(lastAccess := now, distance := distance)] else m
  }

  function PinnedMore(m: Entries, k: CacheKey): Entries {
    if k in m then m[k := m[k].(pins := m[k].pins + 1)] else m
  }

  function PinnedLess(m: Entries, k: CacheKey): Entries {
    if k in m && m[k].pins > 0 then m[k := m[k].(pins := m[k].pins - 1)] else m
  }

  lemma VictimIsWorst(m: Entries, evictable: seq<CacheEntry>, k: CacheKey)
    requires forall e :: e in evictable <==> e.key in m && m[e.key] == e && e.pins == 0
    requires KeysMatch(m)
    requires exists i ::
      && 0 <= i < |evictable| && evictable[i].key == k
      && forall j :: 0 <= j < |evictable| ==> !Worse(evictable[j], evictable[i])
    ensures WorstOf(m, k)
  {
    var i :| 0 <= i < |evictable| && evictable[i].key == k
      && forall j :: 0 <= j < |evictable| ==> !Worse(evictable[j], evictable[i]);
    assert evictable[i] in evictable;
    forall j | j in m && m[j].pins == 0 ensures !Worse(m[j], m[k]) {
      assert m[j] in evictable;
    }
  }

  lemma NoneEvictable(m: Entries, evictable: seq<CacheEntry>)
    requires forall e :: e in evictable <==> e.key in m && m[e.key] == e && e.pins == 0
    requires KeysMatch(m) && evictable == []
    ensures Unpinned(m) == {}
  {
    forall k | k in m ensures m[k].pins != 0 {
      assert m[k] !in evictable;
    }
  }

  lemma WorstIsResident(m: Entries, k: CacheKey)
    requires WorstOf(m, k)
    ensures k in m
  {
  }

  lemma NothingEvicted(capacity: Word, m: Entries, size: nat)
    ensures Greedy(m, []) && TooFew(capacity, m, [], size) && m - Keys([]) == m
  {
  }

  lemma EvictStep(capacity: Word, m: Entries, s: seq<CacheKey>, k: CacheKey, size: nat)
    requires Greedy(m, s) && TooFew(capacity, m, s, size) && WorstOf(m - Keys(s), k)
    requires Crowded(capacity, m - Keys(s), size)
    ensures Greedy(m, s + [k]) && TooFew(capacity, m, s + [k], size)
    ensures m - Keys(s + [k]) == m - Keys(s) - {k}
  {
    GreedyAppend(m, s, k);
    assert Keys(s + [k]) == Keys(s) + {k};
    forall n | 0 <= n < |s + [k]| ensures Crowded(capacity, m - Keys((s + [k])[..n]), size) {
      assert (s + [k])[..n] == s[..n];
      assert s[..|s|] == s;
    }
  }

  lemma Refused(capacity: Word, m: Entries, s: seq<CacheKey>, e: CacheEntry)
    requires Greedy(m, s) && Unpinned(m - Keys(s)) == {}
    requires TooFew(capacity, m, s, e.size) && Crowded(capacity, m - Keys(s), e.size)
    ensures Makes(capacity, m, e, m - Keys(s), Admission(false, s))
  {
    GreedyKeepsPinned(m, s);
    forall k | k in m && m[k].pins == 0 ensures k in s {
      assert k in s || k in Unpinned(m - Keys(s));
    }
    GreedyIsSorted(m, s);
    var t :| SortedOut(m, t) && s <= t;
    NothingBeyond(m, s, t);
  }

  /** A list of all unpinned keys has no proper extension. */
  lemma NothingBeyond(m: Entries, s: seq<CacheKey>, t: seq<CacheKey>)
    requires SortedOut(m, t) && s <= t && forall k :: k in m && m[k].pins == 0 ==> k in s
    ensures s == t
  {
    if t != [] {
      var last := t[|t| - 1];
      assert last in s;
      var j :| 0 <= j < |s| && s[j] == last;
      assert t[j] == last;
    }
  }

  lemma Accepted(capacity: Word, m: Entries, s: seq<CacheKey>, e: CacheEntry)
    requires Greedy(m, s) && TooFew(capacity, m, s, e.size) && !Crowded(capacity, m - Keys(s), e.size)
    ensures Makes(capacity, m, e, (m - Keys(s))[e.key := e], Admission(true, s))
  {
    GreedyIsSorted(m, s);
  }
}
