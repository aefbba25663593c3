/** Distance bands with hysteresis: what the deadband guarantees. */
module LodSelection {
  import opened Base

  datatype Band = Band(lod: int, maxM: int)

  const COLD := -2
  const OFF := -1

  predicate Contains(b: Band, d: real) {
    d <= b.maxM as real
  }

  // ---- What the loops of select_lod compute ----

  /** The band of a level: the first with that number. */
  function Find(bands: seq<Band>, lod: int): Option<Band> {
    if bands == [] then None
    else if bands[0].lod == lod then Some(bands[0])
    else Find(bands[1..], lod)
  }

  /** The largest level whose band contains `d`. */
  function Outermost(bands: seq<Band>, d: real): Option<int> {
    if bands == [] then None
    else
      var b := bands[|bands| - 1];
      var rest := Outermost(bands[..|bands| - 1], d);
      if Contains(b, d) && (rest.None? || b.lod > rest.value) then Some(b.lod) else rest
  }

  /** The smallest level below `cur` whose band contains `d`, or `cur`. */
  function Upgrade(bands: seq<Band>, d: real, cur: int): int {
    if bands == [] then cur
    else
      var b := bands[|bands| - 1];
      var rest := Upgrade(bands[..|bands| - 1], d, cur);
      if b.lod < cur && Contains(b, d) && b.lod < rest then b.lod else rest
  }

  /** Among the levels above `cur` whose band contains `d`, the one with the tightest band. */
  function Demote(bands: seq<Band>, d: real, cur: int): (int, int) {
    if bands == [] then (OFF, 0)
    else
      var b := bands[|bands| - 1];
      var rest := Demote(bands[..|bands| - 1], d, cur);
      if b.lod > cur && Contains(b, d) && (rest.0 == OFF || b.maxM < rest.1) then (b.lod, b.maxM) else rest
  }

  function Hysteresis(pct: nat): real {
    pct as real / 100.0
  }

  function LeaveFar(b: Band, pct: nat): real {
    b.maxM as real * (1.0 + Hysteresis(pct))
  }

  function ColdStart(bands: seq<Band>, d: real): int {
    match Outermost(bands, d)
    case None => OFF
    case Some(lod) => lod
  }

  function ReEnter(bands: seq<Band>, d: real): int {
    match Outermost(bands, d)
    case None => OFF
    case Some(lod) => Max(OFF, lod)
  }

  /** `LodPredictor::select_lod`. */
  function Select(bands: seq<Band>, pct: nat, d: real, last: int): int {
    if last == COLD then ColdStart(bands, d)
    else if last == OFF then ReEnter(bands, d)
    else
      match Find(bands, last)
      case None => ColdStart(bands, d)
      case Some(cur) =>
        if d <= LeaveFar(cur, pct) then Upgrade(bands, d, cur.lod) else Demote(bands, d, cur.lod).0
  }

  /** The same decision, with the loops of the original. */
  method SelectLod(bands: seq<Band>, pct: nat, d: real, last: int) returns (r: int)
    ensures r == Select(bands, pct, d, last)
    decreases if last == COLD then 0 else 1
  {
    if last == COLD || last == OFF {
      var i := 0;
      while i < |bands| && d > bands[i].maxM as real
        invariant 0 <= i <= |bands| && Outermost(bands[..i], d).None?
      {
        assert bands[..i + 1][..i] == bands[..i];
        i := i + 1;
      }
      if i == |bands| {
        assert bands[..i] == bands;
        return OFF;
      }
      OutermostFacts(bands, d);
      assert bands[i] in bands && Contains(bands[i], d);
      var first := if last == COLD then bands[i].lod else OFF;
      var chosen := first;
      for j := 0 to |bands|
        invariant var seen := Outermost(bands[..j], d);
          chosen == if seen.None? then first else Max(first, seen.value)
      {
        assert bands[..j + 1][..j] == bands[..j];
        if d <= bands[j].maxM as real && bands[j].lod > chosen {
          chosen := bands[j].lod;
        }
      }
      assert bands[..|bands|] == bands;
      return chosen;
    }
    var k := 0;
    while k < |bands| && bands[k].lod != last
      invariant 0 <= k <= |bands| && Find(bands, last) == Find(bands[k..], last)
    {
      k := k + 1;
    }
    if k == |bands| {
      r := SelectLod(bands, pct, d, COLD);
      return;
    }
    var cur := bands[k];
    if d <= LeaveFar(cur, pct) {
      var best := cur.lod;
      for i := 0 to |bands|
        invariant best == Upgrade(bands[..i], d, cur.lod)
      {
        assert bands[..i + 1][..i] == bands[..i];
        if bands[i].lod < cur.lod && d <= bands[i].maxM as real {
          if bands[i].lod < best {
            best := bands[i].lod;
          }
        }
      }
      assert bands[..|bands|] == bands;
      return best;
    }
    var chosen, chosenMax := OFF, 0;
    for i := 0 to |bands|
      invariant (chosen, chosenMax) == Demote(bands[..i], d, cur.lod)
    {
      assert bands[..i + 1][..i] == bands[..i];
      if bands[i].lod > cur.lod && d <= bands[i].maxM as real {
        if chosen == OFF || bands[i].maxM < chosenMax {
          chosen, chosenMax := bands[i].lod, bands[i].maxM;
        }
      }
    }
    assert bands[..|bands|] == bands;
    r := chosen;
  }

  // ---- What those values are ----

  lemma {:induction false} OutermostFacts(bands: seq<Band>, d: real)
    ensures var r := Outermost(bands, d);
      && (r.None? <==> forall b :: b in bands ==> !Contains(b, d))
      && (r.Some? ==> exists b :: b in bands && Contains(b, d) && b.lod == r.value)
      && (r.Some? ==> forall b :: b in bands && Contains(b, d) ==> b.lod <= r.value)
  {
    if bands != [] {
      var b := bands[|bands| - 1];
      OutermostFacts(bands[..|bands| - 1], d);
      assert bands == bands[..|bands| - 1] + [b];
      assert b in bands;
    }
  }

  lemma {:induction false} UpgradeFacts(bands: seq<Band>, d: real, cur: int)
    ensures var r := Upgrade(bands, d, cur);
      && r <= cur
      && (r < cur ==> exists b :: b in bands && Contains(b, d) && b.lod == r)
      && (forall b :: b in bands && Contains(b, d) ==> r <= b.lod || cur <= b.lod)
  {
    if bands != [] {
      var b := bands[|bands| - 1];
      UpgradeFacts(bands[..|bands| - 1], d, cur);
      assert bands == bands[..|bands| - 1] + [b];
      assert b in bands;
    }
  }

  /** Levels are numbered from zero, each has one band, and bands reach at least `least`. */
  predicate Banded(bands: seq<Band>, least: int) {
    && (forall b :: b in bands ==> b.lod >= 0 && least <= b.maxM)
    && (forall i, j :: 0 <= i < j < |bands| ==> bands[i].lod != bands[j].lod)
  }

  lemma {:induction false} DemoteFacts(bands: seq<Band>, d: real, cur: int)
    requires forall b :: b in bands ==> b.lod >= 0
    ensures var r := Demote(bands, d, cur);
      && (r.0 == OFF <==> forall b :: b in bands && Contains(b, d) ==> b.lod <= cur)
      && (r.0 != OFF ==> Band(r.0, r.1) in bands && cur < r.0 && Contains(Band(r.0, r.1), d))
      && (r.0 != OFF ==> forall b :: b in bands && Contains(b, d) && cur < b.lod ==> r.1 <= b.maxM)
  {
    if bands != [] {
      var b := bands[|bands| - 1];
      DemoteFacts(bands[..|bands| - 1], d, cur);
      assert bands == bands[..|bands| - 1] + [b];
      assert b in bands;
    }
  }

  lemma {:induction false} FindFacts(bands: seq<Band>, least: int, b: Band)
    requires Banded(bands, least) && b in bands
    ensures Find(bands, b.lod) == Some(b)
  {
    if bands[0] != b {
      assert bands == [bands[0]] + bands[1..];
      FindFacts(bands[1..], least, b);
    }
  }

  lemma {:induction false} FindIsMember(bands: seq<Band>, lod: int)
    requires Find(bands, lod).Some?
    ensures Find(bands, lod).value in bands && Find(bands, lod).value.lod == lod
  {
    if bands[0].lod != lod {
      FindIsMember(bands[1..], lod);
    }
  }

  /** The band contains the distance. */
  predicate Within(b: Band, d: real) {
    d <= b.maxM as real
  }

  predicate NoneWithin(bands: seq<Band>, d: real) {
    forall b :: b in bands ==> !Within(b, d)
  }

  /** A fresh decision: the outermost level whose band contains the distance, or none. */
  ghost predicate OutermostChosen(bands: seq<Band>, d: real, r: int) {
    if NoneWithin(bands, d) then r == OFF
    else (exists b :: b in bands && Within(b, d) && b.lod == r) && forall b :: b in bands && Within(b, d) ==> b.lod <= r
  }

  /** A decision inside the deadband: the innermost level whose band contains the distance, if it is nearer
      than the current one; it never demotes. */
  ghost predicate Promoted(bands: seq<Band>, d: real, cur: int, r: int) {
    && r <= cur && (r < cur ==> exists b :: b in bands && Within(b, d) && b.lod == r)
    && (forall b :: b in bands && Within(b, d) && b.lod < cur ==> r <= b.lod)
  }

  /** A decision beyond the deadband: the tightest of the farther bands that contain the distance, or none. */
  ghost predicate Demoted(bands: seq<Band>, d: real, cur: int, r: int) {
    if forall b :: b in bands && Within(b, d) ==> b.lod <= cur then r == OFF
    else exists b ::
      && b in bands && Within(b, d) && b.lod == r > cur
      && forall c :: c in bands && Within(c, d) && c.lod > cur ==> b.maxM <= c.maxM
  }

  /** What one decision is, for bands of non-negative levels, each with one band: from a cold start, out of
      range or an unknown level, a fresh one; from the band of `last`, whose far edge is widened by the
      hysteresis percentage, a promotion or nothing inside and a demotion beyond. */
  lemma SelectIs(bands: seq<Band>, pct: nat, d: real, last: int, b: Band)
    requires Banded(bands, 0)
    ensures last == COLD || last == OFF ==> OutermostChosen(bands, d, Select(bands, pct, d, last))
    ensures (forall c :: c in bands ==> c.lod != last) ==> OutermostChosen(bands, d, Select(bands, pct, d, last))
    ensures b in bands && b.lod == last ==>
      if 100.0 * d <= (b.maxM * (100 + pct)) as real then Promoted(bands, d, last, Select(bands, pct, d, last))
      else Demoted(bands, d, last, Select(bands, pct, d, last))
  {
    OutermostFacts(bands, d);
    if Find(bands, last).Some? {
      FindIsMember(bands, last);
    }
    if b in bands && b.lod == last {
      FindFacts(bands, 0, b);
      WidenedEdge(b, pct, d);
      UpgradeFacts(bands, d, last);
      DemotedIs(bands, d, last);
    }
    hide Outermost, Upgrade, Demote, LeaveFar, Find, Banded;
  }

  lemma WidenedEdge(b: Band, pct: nat, d: real)
    ensures d <= LeaveFar(b, pct) <==> 100.0 * d <= (b.maxM * (100 + pct)) as real
  {
    assert 100.0 * LeaveFar(b, pct) == b.maxM as real * (100.0 + pct as real);
    assert (b.maxM * (100 + pct)) as real == b.maxM as real * (100 + pct) as real;
  }

  lemma DemotedIs(bands: seq<Band>, d: real, cur: int)
    requires Banded(bands, 0)
    ensures Demoted(bands, d, cur, Demote(bands, d, cur).0)
  {
    DemoteFacts(bands, d, cur);
    var (r, m) := Demote(bands, d, cur);
    if r != OFF {
      assert Band(r, m) in bands && Within(Band(r, m), d);
    }
  }

  // ---- Hysteresis pays for every demotion ----

  function Abs(x: real): real {
    if x < 0.0 then -x else x
  }

  function Variation(ds: seq<real>): real {
    if |ds| < 2 then 0.0 else Variation(ds[..|ds| - 1]) + Abs(ds[|ds| - 1] - ds[|ds| - 2])
  }

  /** The level decided after the distances `ds`, from a cold start. */
  function LevelAfter(bands: seq<Band>, pct: nat, ds: seq<real>): int {
    if ds == [] then COLD
    else Select(bands, pct, ds[|ds| - 1], LevelAfter(bands, pct, ds[..|ds| - 1]))
  }

  /** Leaving a band for a farther one, or for none. */
  predicate IsDemotion(bands: seq<Band>, before: int, after: int) {
    before >= 0 && Find(bands, before).Some? && (after > before || after == OFF)
  }

  function Demotions(bands: seq<Band>, pct: nat, ds: seq<real>): nat {
    if ds == [] then 0
    else
      var before := LevelAfter(bands, pct, ds[..|ds| - 1]);
      Demotions(bands, pct, ds[..|ds| - 1])
        + if IsDemotion(bands, before, LevelAfter(bands, pct, ds)) then 1 else 0
  }

  /** How far `d` is outside the band of `lod`: distance already travelled toward leaving it. */
  function Credit(bands: seq<Band>, lod: int, d: real): real {
    match Find(bands, lod)
    case None => 0.0
    case Some(b) => if lod >= 0 && d > b.maxM as real then d - b.maxM as real else 0.0
  }

  function Toll(pct: nat, least: nat): real {
    Hysteresis(pct) * least as real
  }

  lemma ProductMono(h: real, a: real, b: real)
    requires h >= 0.0 && a <= b
    ensures h * a <= h * b
  {
  }

  /** A level that is entered at `d` has a band around `d`, so its credit starts at zero. */
  lemma EnteredInside(bands: seq<Band>, least: nat, pct: nat, d: real, last: int)
    requires Banded(bands, least)
    ensures var r := Select(bands, pct, d, last); r != last ==> Credit(bands, r, d) == 0.0
  {
    OutermostFacts(bands, d);
    UpgradeFacts(bands, d, last);
    DemoteFacts(bands, d, last);
    var r := Select(bands, pct, d, last);
    if Find(bands, last).Some? {
      FindIsMember(bands, last);
    }
    if b :| b in bands && Contains(b, d) && b.lod == r {
      FindFacts(bands, least, b);
    }
  }

  lemma StayedOrLeft(bands: seq<Band>, least: nat, pct: nat, d: real, last: int)
    requires Banded(bands, least) && last != COLD && last != OFF && Find(bands, last).Some?
    ensures var b, r := Find(bands, last).value, Select(bands, pct, d, last);
      && (d <= LeaveFar(b, pct) ==> 0 <= r <= last)
      && (d > LeaveFar(b, pct) ==> r > last || r == OFF)
      && b.lod == last >= 0 && least <= b.maxM
  {
    FindIsMember(bands, last);
    UpgradeFacts(bands, d, last);
    DemoteFacts(bands, d, last);
  }

  lemma CreditNonNegative(bands: seq<Band>, lod: int, d: real)
    ensures Credit(bands, lod, d) >= 0.0
  {
  }

  /** Credit changes no faster than the distance. */
  lemma CreditSlow(bands: seq<Band>, lod: int, d0: real, d: real)
    ensures Credit(bands, lod, d) <= Credit(bands, lod, d0) + Abs(d - d0)
  {
  }

  /** Leaving a band takes more credit than the smallest deadband. */
  lemma LeavingPays(bands: seq<Band>, least: nat, pct: nat, last: int, d: real)
    requires Find(bands, last).Some? && last >= 0 && least <= Find(bands, last).value.maxM
    requires d > LeaveFar(Find(bands, last).value, pct)
    ensures Toll(pct, least) <= Credit(bands, last, d)
  {
    var b := Find(bands, last).value;
    ProductMono(Hysteresis(pct), least as real, b.maxM as real);
    ProductMono(Hysteresis(pct), 0.0, b.maxM as real);
    assert LeaveFar(b, pct) == b.maxM as real + Hysteresis(pct) * b.maxM as real;
  }

  /** One decision: the toll of a demotion is paid by the credit and the way travelled. */
  lemma StepPays(bands: seq<Band>, least: nat, pct: nat, last: int, d0: real, d: real)
    requires Banded(bands, least)
    ensures var r := Select(bands, pct, d, last);
      (if IsDemotion(bands, last, r) then Toll(pct, least) else 0.0) + Credit(bands, r, d)
        <= Credit(bands, last, d0) + Abs(d - d0)
  {
    var r := Select(bands, pct, d, last);
    EnteredInside(bands, least, pct, d, last);
    CreditSlow(bands, last, d0, d);
    CreditNonNegative(bands, last, d0);
    if last >= 0 && Find(bands, last).Some? {
      var b := Find(bands, last).value;
      StayedOrLeft(bands, least, pct, d, last);
      if d > LeaveFar(b, pct) {
        LeavingPays(bands, least, pct, last, d);
      }
    }
    hide Select, Toll, Credit, LeaveFar, Banded;
  }

  /** Tolls paid so far, plus the credit still held. */
  function Spent(bands: seq<Band>, least: nat, pct: nat, ds: seq<real>): real {
    Demotions(bands, pct, ds) as real * Toll(pct, least)
      + if ds == [] then 0.0 else Credit(bands, LevelAfter(bands, pct, ds), ds[|ds| - 1])
  }

  lemma SpentStep(bands: seq<Band>, least: nat, pct: nat, ds: seq<real>)
    requires Banded(bands, least) && |ds| > 1
    ensures Spent(bands, least, pct, ds) - Spent(bands, least, pct, ds[..|ds| - 1]) <= Abs(ds[|ds| - 1] - ds[|ds| - 2])
  {
    hide Toll, Credit, Select, IsDemotion, Abs;
    var init := ds[..|ds| - 1];
    var before, after := LevelAfter(bands, pct, init), LevelAfter(bands, pct, ds);
    assert init[|init| - 1] == ds[|ds| - 2];
    StepPays(bands, least, pct, before, ds[|ds| - 2], ds[|ds| - 1]);
    TollAdds(Demotions(bands, pct, init), Toll(pct, least));
    if IsDemotion(bands, before, after) {
      assert Demotions(bands, pct, ds) == Demotions(bands, pct, init) + 1;
    } else {
      assert Demotions(bands, pct, ds) == Demotions(bands, pct, init);
    }
  }

  /** From a cold start, every demotion costs at least the deadband of the smallest band. */
  lemma {:induction false} DemotionsBounded(bands: seq<Band>, least: nat, pct: nat, ds: seq<real>)
    requires Banded(bands, least)
    ensures Spent(bands, least, pct, ds) <= Variation(ds)
  {
    if |ds| == 1 {
      assert ds[..|ds| - 1] == [];
      assert Demotions(bands, pct, ds) == 0 && LevelAfter(bands, pct, ds) == Select(bands, pct, ds[0], COLD);
      EnteredInside(bands, least, pct, ds[0], COLD);
      OutermostFacts(bands, ds[0]);
    } else if |ds| > 1 {
      hide Spent;
      DemotionsBounded(bands, least, pct, ds[..|ds| - 1]);
      SpentStep(bands, least, pct, ds);
    }
  }

  lemma TollAdds(n: nat, toll: real)
    ensures (n + 1) as real * toll == n as real * toll + toll
  {
  }

  /** The number of demotions times the smallest deadband never exceeds the distance travelled. */
  lemma HysteresisBoundsSwitching(bands: seq<Band>, least: nat, pct: nat, ds: seq<real>)
    requires Banded(bands, least)
    ensures Demotions(bands, pct, ds) as real * Toll(pct, least) <= Variation(ds)
  {
    hide Toll, Credit, Demotions, Variation;
    DemotionsBounded(bands, least, pct, ds);
    if ds != [] {
      CreditNonNegative(bands, LevelAfter(bands, pct, ds), ds[|ds| - 1]);
    }
  }

  // ---- At a constant distance the decision settles ----

  predicate Increasing(bands: seq<Band>) {
    && (forall b :: b in bands ==> b.lod >= 0 && b.maxM >= 0)
    && (forall i, j :: 0 <= i < j < |bands| ==> bands[i].lod < bands[j].lod && bands[i].maxM < bands[j].maxM)
  }

  lemma IncreasingBands(bands: seq<Band>, a: Band, b: Band)
    requires Increasing(bands) && a in bands && b in bands
    ensures a.lod < b.lod <==> a.maxM < b.maxM
    ensures a.lod == b.lod ==> a == b
  {
    var i :| 0 <= i < |bands| && bands[i] == a;
    var j :| 0 <= j < |bands| && bands[j] == b;
    if i < j {
      assert bands[i].lod < bands[j].lod;
    } else if j < i {
      assert bands[j].lod < bands[i].lod;
    }
  }

  lemma InsideStays(b: Band, pct: nat, d: real)
    requires b.maxM >= 0 && Contains(b, d)
    ensures d <= LeaveFar(b, pct)
  {
    ProductMono(b.maxM as real, 1.0, 1.0 + Hysteresis(pct));
  }

  /** From a level whose band contains `d`, the decision is the innermost containing level. */
  lemma FromInside(bands: seq<Band>, pct: nat, d: real, b: Band)
    requires Increasing(bands) && b in bands && Contains(b, d)
    ensures Select(bands, pct, d, b.lod) == Upgrade(bands, d, b.lod)
  {
    FindFacts(bands, 0, b);
    InsideStays(b, pct, d);
  }

  lemma UpgradeSettles(bands: seq<Band>, pct: nat, d: real, b: Band)
    requires Increasing(bands) && b in bands && d <= LeaveFar(b, pct)
    ensures var r := Upgrade(bands, d, b.lod); Select(bands, pct, d, r) == r
  {
    var r := Upgrade(bands, d, b.lod);
    UpgradeFacts(bands, d, b.lod);
    UpgradeFacts(bands, d, r);
    FindFacts(bands, 0, b);
    if r < b.lod {
      var c :| c in bands && Contains(c, d) && c.lod == r;
      FromInside(bands, pct, d, c);
      if s :| s in bands && Contains(s, d) && s.lod == Upgrade(bands, d, r) {
        assert r <= s.lod;
      }
    }
  }

  /** Whatever still contains a distance beyond the deadband of `b` is farther out. */
  lemma BeyondBand(bands: seq<Band>, pct: nat, d: real, b: Band, c: Band)
    requires Increasing(bands) && b in bands && c in bands && d > LeaveFar(b, pct) && Contains(c, d)
    ensures b.lod < c.lod
  {
    IncreasingBands(bands, b, c);
    ProductMono(b.maxM as real, 1.0, 1.0 + Hysteresis(pct));
  }

  /** The tightest farther band has no tighter one inside it that contains the distance. */
  lemma DemotedIsInnermost(bands: seq<Band>, d: real, cur: int)
    requires Increasing(bands) && forall c :: c in bands && Contains(c, d) ==> cur < c.lod
    ensures var r := Demote(bands, d, cur).0; r != OFF ==> Upgrade(bands, d, r) == r
  {
    var (r, m) := Demote(bands, d, cur);
    DemoteFacts(bands, d, cur);
    if r != OFF {
      UpgradeFacts(bands, d, r);
      hide Demote, Upgrade, Increasing;
      if s :| s in bands && Contains(s, d) && s.lod == Upgrade(bands, d, r) {
        IncreasingBands(bands, s, Band(r, m));
      }
    }
  }

  lemma DemoteSettles(bands: seq<Band>, pct: nat, d: real, b: Band)
    requires Increasing(bands) && b in bands && d > LeaveFar(b, pct)
    ensures var r := Demote(bands, d, b.lod).0; Select(bands, pct, d, r) == r
  {
    var (r, m) := Demote(bands, d, b.lod);
    forall c | c in bands && Contains(c, d) ensures b.lod < c.lod {
      BeyondBand(bands, pct, d, b, c);
    }
    DemoteFacts(bands, d, b.lod);
    if r != OFF {
      DemotedIsInnermost(bands, d, b.lod);
      FromInside(bands, pct, d, Band(r, m));
    } else {
      OutermostFacts(bands, d);
    }
    hide Demote, Upgrade, Outermost, Increasing, LeaveFar;
  }

  /** From any band, one decision is enough: repeating it changes nothing. */
  lemma SelectIdempotent(bands: seq<Band>, pct: nat, d: real, b: Band)
    requires Increasing(bands) && b in bands
    ensures var r := Select(bands, pct, d, b.lod); Select(bands, pct, d, r) == r
  {
    FindFacts(bands, 0, b);
    if d <= LeaveFar(b, pct) {
      UpgradeSettles(bands, pct, d, b);
    } else {
      DemoteSettles(bands, pct, d, b);
    }
  }

  /** From a cold start or from out of range, the decision settles within two steps. The first
      step takes the outermost level, which need not be the final one. */
  lemma SelectSettles(bands: seq<Band>, pct: nat, d: real, start: int)
    requires Increasing(bands) && (start == COLD || start == OFF)
    ensures var r1 := Select(bands, pct, d, start);
      var r2 := Select(bands, pct, d, r1);
      Select(bands, pct, d, r2) == r2
  {
    OutermostFacts(bands, d);
    var r1 := Select(bands, pct, d, start);
    if r1 != OFF {
      var b :| b in bands && Contains(b, d) && b.lod == r1;
      SelectIdempotent(bands, pct, d, b);
    }
  }
}
