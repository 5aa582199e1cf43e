/**
 * The seeded galaxy generator of js/gen.js.
 *
 * A galaxy is drawn from one random stream: first the planet count, then for
 * each planet a size rule and a region count, then for each region its hazard,
 * resources, hazard parameter and artefact unlock time, and finally the set of
 * regions that hide an artefact.  The functions `Roll*` say what one stream
 * yields; the methods `ArtefactTargets` and `GenerateGalaxy` are the source's
 * loops, proved to yield exactly that.
 */
module Gen {
  import opened Rng
  import opened Hex

  datatype Size = Tiny | Small | Medium | Large | Massive

  /** One row of PLANET_SIZE_RULES: a size and its inclusive region-count bounds. */
  datatype SizeRule = SizeRule(size: Size, min: int, max: int)

  const SizeRules: seq<SizeRule> := [
    SizeRule(Tiny, 2, 4),
    SizeRule(Small, 5, 8),
    SizeRule(Medium, 9, 14),
    SizeRule(Large, 15, 20),
    SizeRule(Massive, 21, 24)
  ]

  datatype Difficulty = Difficulty(planetMin: int, planetMax: int, hazardFrequency: real)

  datatype Resource = Metal | Energy | Organic

  /** The order in which a region's resources are rolled. */
  const ResourceOrder: seq<Resource> := [Metal, Energy, Organic]

  function Rank(x: Resource): nat
  {
    match x
    case Metal => 0
    case Energy => 1
    case Organic => 2
  }

  datatype Rarity = Common | Rare | Ultra

  datatype Category = DNA | Fossil | Life

  /** A revealed artefact: the item of a category's pool, with its rarity. */
  datatype Artefact = Artefact(category: Category, rarity: Rarity, item: string)

  /**
   * A region hazard.  A time hazard blocks harvesting until `cooldownEnd`
   * (a time in milliseconds); a shield hazard blocks travel below a shield level.
   */
  datatype Hazard = NoHazard | Time(seconds: int, cooldownEnd: int) | Shield(required: int)

  datatype HazardKind = NoKind | TimeKind | ShieldKind

  /** The region id `P{planet}-R{index}`, both 1-based. */
  datatype RegionId = RegionId(planet: nat, index: nat)

  /**
   * A region.  `artefactUnlockStart` and `nextHarvestAt` are times in
   * milliseconds where 0 means "not set", as the source tests them for truth.
   */
  datatype Region = Region(
    id: RegionId,
    coord: Coord,
    harvestedPct: real,
    harvested: bool,
    discovered: bool,
    resources: seq<Resource>,
    hazard: Hazard,
    hasArtefactUnknown: bool,
    artefactUnlockSeconds: int,
    artefactUnlockStart: int,
    artefactRevealed: Option<Artefact>,
    nextHarvestAt: int)

  /** A planet; its id `planet-{id}` is 1-based. */
  datatype Planet = Planet(
    id: nat,
    size: Size,
    regionCount: int,
    regions: seq<Region>,
    currentRegionId: RegionId,
    completedPct: int)

  datatype Galaxy = Galaxy(
    index: int,
    seed: int,
    hazardFrequency: real,
    planetVisitsCount: int,
    planets: seq<Planet>,
    totalRegions: int,
    startedAt: int)

  function RMin(a: real, b: real): real { if a <= b then a else b }

  /** The progress factor t = min(1, (index - 1) / 49). */
  function Progress(index: int): real
  {
    RMin(1.0, (index - 1) as real / 49.0)
  }

  /** getDifficulty */
  function GetDifficulty(index: int): Difficulty
  {
    var t := Progress(index);
    Difficulty(2 + (t * 2.0).Floor, 4 + (t * 3.0).Floor, 0.15 + t * 0.35)
  }

  lemma FloorBounds(x: real, k: int)
    requires 0.0 <= x <= k as real
    ensures 0 <= x.Floor <= k
  {
  }

  /** From the first galaxy on, t lies in [0, 1] and the difficulty stays within its bounds. */
  lemma DifficultyRanges(index: int)
    requires index >= 1
    ensures 0.0 <= Progress(index) <= 1.0
    ensures 2 <= GetDifficulty(index).planetMin <= 4
    ensures 4 <= GetDifficulty(index).planetMax <= 7
    ensures GetDifficulty(index).planetMin <= GetDifficulty(index).planetMax
    ensures 0.15 <= GetDifficulty(index).hazardFrequency <= 0.5
  {
    var t := Progress(index);
    FloorBounds(t * 2.0, 2);
    FloorBounds(t * 3.0, 3);
  }

  /** From galaxy 50 on the difficulty no longer changes. */
  lemma DifficultyConstantFrom50(index: int)
    requires index >= 50
    ensures GetDifficulty(index) == Difficulty(4, 7, 0.5)
  {
    assert Progress(index) == 1.0;
  }

  lemma FloorMonotone(x: real, y: real)
    requires x <= y
    ensures x.Floor <= y.Floor
  {
  }

  /** Later galaxies are never easier. */
  lemma DifficultyMonotone(i: int, j: int)
    requires i <= j
    ensures GetDifficulty(i).planetMin <= GetDifficulty(j).planetMin
    ensures GetDifficulty(i).planetMax <= GetDifficulty(j).planetMax
    ensures GetDifficulty(i).hazardFrequency <= GetDifficulty(j).hazardFrequency
  {
    var s, t := Progress(i), Progress(j);
    assert s <= t;
    FloorMonotone(s * 2.0, t * 2.0);
    FloorMonotone(s * 3.0, t * 3.0);
  }

  /** The size rules a planet of galaxy `index` may draw: the first min(4, (index - 1) / 12) + 1. */
  function AllowedSizes(index: int): (rules: seq<SizeRule>)
    requires index >= 1
    ensures 1 <= |rules| <= |SizeRules|
    ensures rules == SizeRules[..|rules|]
  {
    SizeRules[..Min(|SizeRules| - 1, (index - 1) / 12) + 1]
  }

  /** Up to galaxy 12 every planet is tiny. */
  lemma EarlyGalaxiesAreTiny(index: int)
    requires 1 <= index <= 12
    ensures AllowedSizes(index) == [SizeRule(Tiny, 2, 4)]
  {
    assert (index - 1) / 12 == 0;
  }

  /** Every rule that can be drawn has 2 <= min <= max. */
  lemma AllowedSizesWellFormed(index: int, rule: SizeRule)
    requires index >= 1 && rule in AllowedSizes(index)
    ensures 2 <= rule.min <= rule.max <= 24
  {
  }

  // ---------------------------------------------------------------------------
  // What one stream yields
  // ---------------------------------------------------------------------------

  /** Resources kept in rolling order are strictly increasing in rank: an order-preserving subset. */
  predicate InRollOrder(rs: seq<Resource>)
  {
    forall i, j :: 0 <= i < j < |rs| ==> Rank(rs[i]) < Rank(rs[j])
  }

  /** `['metal', 'energy', 'organic'].filter(() => rng() > 0.2)` */
  function RollResources(s: seq<Unit>): (r: Option<Drawn<seq<Resource>>>)
    ensures r.Some? <==> |s| >= 3
    ensures r.Some? ==> r.value.rest == s[3..] && InRollOrder(r.value.value) && |r.value.value| <= 3
    ensures r.Some? ==> forall k :: 0 <= k < 3 ==> (ResourceOrder[k] in r.value.value <==> s[k] > 0.2)
  {
    var a :- Next(s);
    var b :- Next(a.rest);
    var c :- Next(b.rest);
    Some(Drawn(
      (if a.value > 0.2 then [Metal] else [])
      + (if b.value > 0.2 then [Energy] else [])
      + (if c.value > 0.2 then [Organic] else []),
      c.rest))
  }

  /** Whether a region is hazardous and of which kind: one draw, and a second one for a hazard. */
  function RollHazardKind(s: seq<Unit>, freq: real): (r: Option<Drawn<HazardKind>>)
  {
    var h :- Next(s);
    if h.value < freq then
      var k :- Next(h.rest);
      Some(Drawn(if k.value < 0.5 then TimeKind else ShieldKind, k.rest))
    else
      Some(Drawn(NoKind, h.rest))
  }

  predicate HazardInRange(h: Hazard)
  {
    match h
    case NoHazard => true
    case Time(seconds, cooldownEnd) => 60 <= seconds <= 300 && cooldownEnd == 0
    case Shield(required) => 1 <= required <= 5
  }

  /** The hazard's parameter: seconds in [60, 300] for a time hazard, a shield level in [1, 5]. */
  function RollHazard(s: seq<Unit>, kind: HazardKind): (r: Option<Drawn<Hazard>>)
    ensures r.Some? ==> HazardInRange(r.value.value)
    ensures r.Some? ==> (r.value.value.NoHazard? <==> kind == NoKind)
    ensures r.Some? ==> (r.value.value.Time? <==> kind == TimeKind)
  {
    match kind
    case NoKind => Some(Drawn(NoHazard, s))
    case TimeKind =>
      var x :- DrawInt(s, 60, 300);
      Some(Drawn(Time(x.value, 0), x.rest))
    case ShieldKind =>
      var x :- DrawInt(s, 1, 5);
      Some(Drawn(Shield(x.value), x.rest))
  }

  /** What a freshly generated region looks like. */
  predicate FreshRegion(rg: Region, id: RegionId, coord: Coord, first: bool)
  {
    && rg.id == id
    && rg.coord == coord
    && rg.harvestedPct == 0.0
    && !rg.harvested
    && rg.discovered == first
    && InRollOrder(rg.resources)
    && HazardInRange(rg.hazard)
    && !rg.hasArtefactUnknown
    && 20 <= rg.artefactUnlockSeconds <= 75
    && rg.artefactUnlockStart == 0
    && rg.artefactRevealed == None
    && rg.nextHarvestAt == 0
  }

  /** The body of the `coords.map` callback: one region, in the source's draw order. */
  function RollRegion(s: seq<Unit>, freq: real, id: RegionId, coord: Coord, first: bool): (r: Option<Drawn<Region>>)
    ensures r.Some? ==> FreshRegion(r.value.value, id, coord, first)
  {
    var kind :- RollHazardKind(s, freq);
    var resources :- RollResources(kind.rest);
    var hazard :- RollHazard(resources.rest, kind.value);
    var unlock :- DrawInt(hazard.rest, 20, 75);
    Some(Drawn(
      Region(id, coord, 0.0, false, first, resources.value, hazard.value, false, unlock.value, 0, None, 0),
      unlock.rest))
  }

  /** The `coords.map` callback of the planet loop, for planet p: region i sits at coordinate c. */
  function RegionCallback(freq: real, p: nat): (seq<Unit>, Coord, nat) -> Option<Drawn<Region>>
  {
    (s: seq<Unit>, c: Coord, i: nat) => RollRegion(s, freq, RegionId(p, i + 1), c, i == 0)
  }

  /**
   * `xs.map(f)` where every call of f draws from the shared stream: it continues
   * a map that has built `done` for items 0 .. i - 1, and item i draws from what
   * item i - 1 left.
   */
  function MapDraw<A, T>(s: seq<Unit>, xs: seq<A>, f: (seq<Unit>, A, nat) -> Option<Drawn<T>>, i: nat, done: seq<T>)
    : (r: Option<Drawn<seq<T>>>)
    requires i <= |xs| && |done| == i
    ensures r.Some? ==> |r.value.value| == |xs| && r.value.value[..i] == done
    decreases |xs| - i
  {
    if i == |xs| then Some(Drawn(done, s))
    else
      var x :- f(s, xs[i], i);
      MapDraw(x.rest, xs, f, i + 1, done + [x.value])
  }

  /** One step of the map: None if item i fails to draw, otherwise the map continues after it. */
  lemma MapDrawStep<A, T>(s: seq<Unit>, xs: seq<A>, f: (seq<Unit>, A, nat) -> Option<Drawn<T>>, i: nat, done: seq<T>)
    requires i < |xs| && |done| == i
    ensures f(s, xs[i], i).None? ==> MapDraw(s, xs, f, i, done) == None
    ensures f(s, xs[i], i).Some? ==>
              MapDraw(s, xs, f, i, done)
              == MapDraw(f(s, xs[i], i).value.rest, xs, f, i + 1, done + [f(s, xs[i], i).value.value])
  {
  }

  /** The regions of planet p, one per coordinate, in coordinate order. */
  function RollRegions(s: seq<Unit>, freq: real, p: nat, coords: seq<Coord>): (r: Option<Drawn<seq<Region>>>)
    ensures r.Some? ==> |r.value.value| == |coords| && FreshRegions(r.value.value, p, coords)
  {
    var r := MapDraw(s, coords, RegionCallback(freq, p), 0, []);
    if r.Some? then RegionMapFresh(s, freq, p, coords, 0, []); r else r
  }

  /** Continuing the region map from fresh regions yields fresh regions. */
  lemma {:induction false} RegionMapFresh(
    s: seq<Unit>, freq: real, p: nat, coords: seq<Coord>, i: nat, done: seq<Region>)
    requires i <= |coords| && |done| == i && FreshRegions(done, p, coords)
    requires MapDraw(s, coords, RegionCallback(freq, p), i, done).Some?
    ensures FreshRegions(MapDraw(s, coords, RegionCallback(freq, p), i, done).value.value, p, coords)
    decreases |coords| - i
  {
    if i < |coords| {
      var f := RegionCallback(freq, p);
      MapDrawStep(s, coords, f, i, done);
      var rg := RollRegion(s, freq, RegionId(p, i + 1), coords[i], i == 0);
      assert f(s, coords[i], i) == rg;
      FreshRegionsSnoc(done, rg.value.value, p, coords);
      RegionMapFresh(rg.value.rest, freq, p, coords, i + 1, done + [rg.value.value]);
    }
  }

  /** Region k of `rs` is the fresh region of planet p at coordinate k. */
  predicate FreshRegions(rs: seq<Region>, p: nat, coords: seq<Coord>)
  {
    forall k :: 0 <= k < |rs| && k < |coords| ==> FreshRegion(rs[k], RegionId(p, k + 1), coords[k], k == 0)
  }

  lemma FreshRegionsSnoc(rs: seq<Region>, rg: Region, p: nat, coords: seq<Coord>)
    requires |rs| < |coords| && FreshRegions(rs, p, coords)
    requires FreshRegion(rg, RegionId(p, |rs| + 1), coords[|rs|], |rs| == 0)
    ensures FreshRegions(rs + [rg], p, coords)
  {
    var all := rs + [rg];
    forall k | 0 <= k < |all| && k < |coords|
      ensures FreshRegion(all[k], RegionId(p, k + 1), coords[k], k == 0)
    {
      if k < |rs| {
        assert all[k] == rs[k];
      }
    }
  }

  /** A freshly generated planet with id p in galaxy `index`. */
  predicate FreshPlanet(pl: Planet, p: nat, index: int)
    requires index >= 1
  {
    && pl.id == p
    && (exists rule :: rule in AllowedSizes(index) && rule.size == pl.size && rule.min <= pl.regionCount <= rule.max)
    && 2 <= pl.regionCount <= 24
    && |pl.regions| == pl.regionCount
    && FreshRegions(pl.regions, p, Spiral(pl.regionCount))
    && pl.currentRegionId == pl.regions[0].id
    && pl.completedPct == 0
  }

  /** One iteration of the planet loop: size rule, region count, then the regions. */
  function RollPlanet(s: seq<Unit>, index: int, freq: real, p: nat): (r: Option<Drawn<Planet>>)
    requires index >= 1
    ensures r.Some? ==> FreshPlanet(r.value.value, p + 1, index)
  {
    var rule :- DrawPick(s, AllowedSizes(index));
    AllowedSizesWellFormed(index, rule.value);
    var count :- DrawInt(rule.rest, rule.value.min, rule.value.max);
    var regions :- RollRegions(count.rest, freq, p + 1, Spiral(count.value));
    Some(Drawn(
      Planet(p + 1, rule.value.size, count.value, regions.value, regions.value[0].id, 0),
      regions.rest))
  }

  /** Planet k of `ps` is a fresh planet with id k + 1. */
  predicate FreshPlanets(ps: seq<Planet>, index: int)
    requires index >= 1
  {
    forall k :: 0 <= k < |ps| ==> FreshPlanet(ps[k], k + 1, index)
  }

  /** The planet loop, continuing after planets 0 .. p - 1 (`done`) up to planet n - 1. */
  function RollPlanets(s: seq<Unit>, index: int, freq: real, p: nat, n: nat, done: seq<Planet>)
    : (r: Option<Drawn<seq<Planet>>>)
    requires index >= 1 && p <= n && |done| == p
    ensures r.Some? ==> |r.value.value| == n
    decreases n - p
  {
    if p == n then Some(Drawn(done, s))
    else
      var pl :- RollPlanet(s, index, freq, p);
      RollPlanets(pl.rest, index, freq, p + 1, n, done + [pl.value])
  }

  lemma FreshPlanetsSnoc(ps: seq<Planet>, pl: Planet, index: int)
    requires index >= 1 && FreshPlanets(ps, index) && FreshPlanet(pl, |ps| + 1, index)
    ensures FreshPlanets(ps + [pl], index)
  {
    forall k | 0 <= k < |ps| + 1
      ensures FreshPlanet((ps + [pl])[k], k + 1, index)
    {
      if k < |ps| {
        assert (ps + [pl])[k] == ps[k];
      }
    }
  }

  /** Continuing from fresh planets yields fresh planets with ids 1 .. n. */
  lemma {:induction false} RollPlanetsFresh(
    s: seq<Unit>, index: int, freq: real, p: nat, n: nat, done: seq<Planet>)
    requires index >= 1 && p <= n && |done| == p && FreshPlanets(done, index)
    requires RollPlanets(s, index, freq, p, n, done).Some?
    ensures FreshPlanets(RollPlanets(s, index, freq, p, n, done).value.value, index)
    decreases n - p
  {
    if p < n {
      var pl := RollPlanet(s, index, freq, p).value;
      FreshPlanetsSnoc(done, pl.value, index);
      RollPlanetsFresh(pl.rest, index, freq, p + 1, n, done + [pl.value]);
    }
  }

  /** No index occurs twice. */
  predicate Distinct(xs: seq<int>)
  {
    forall i, j :: 0 <= i < j < |xs| ==> xs[i] != xs[j]
  }

  predicate Below(xs: seq<int>, n: int)
  {
    forall i :: 0 <= i < |xs| ==> 0 <= xs[i] < n
  }

  /**
   * The `while` loop of artefactTargets: draw region indices in [0, n) until
   * `goal` distinct ones are held, in order of first appearance.
   */
  function TargetLoop(s: seq<Unit>, goal: nat, n: int, picks: seq<int>): (r: Option<Drawn<seq<int>>>)
    requires goal <= n && |picks| <= goal && Distinct(picks) && Below(picks, n)
    ensures r.Some? ==> |r.value.value| == goal && Distinct(r.value.value) && Below(r.value.value, n)
    ensures r.Some? ==> r.value.value[..|picks|] == picks
    decreases |s|
  {
    if |picks| >= goal then Some(Drawn(picks, s))
    else
      var x :- DrawInt(s, 0, n - 1);
      TargetLoop(x.rest, goal, n, if x.value in picks then picks else picks + [x.value])
  }

  /** artefactTargets: a total in [3, 5], then min(total, n) distinct indices below n. */
  function ArtefactTargetsSpec(s: seq<Unit>, n: nat): (r: Option<Drawn<seq<int>>>)
    ensures r.Some? ==> |s| > 0 && |r.value.value| == Min(IntInRange(s[0], 3, 5), n)
    ensures r.Some? ==> Distinct(r.value.value) && Below(r.value.value, n)
  {
    var total :- DrawInt(s, 3, 5);
    TargetLoop(total.rest, Min(total.value, n), n, [])
  }

  method ArtefactTargets(s: seq<Unit>, n: nat) returns (r: Option<Drawn<seq<int>>>)
    ensures r == ArtefactTargetsSpec(s, n)
  {
    if |s| == 0 {
      return None;
    }
    var total := IntInRange(s[0], 3, 5);
    var rest := s[1..];
    var goal := Min(total, n);
    var picks: seq<int> := [];
    while |picks| < goal
      invariant |picks| <= goal && Distinct(picks) && Below(picks, n)
      invariant TargetLoop(rest, goal, n, picks) == ArtefactTargetsSpec(s, n)
      decreases |rest|
    {
      if |rest| == 0 {
        return None;
      }
      var x := IntInRange(rest[0], 0, n - 1);
      if x !in picks {
        picks := picks + [x];
      }
      rest := rest[1..];
    }
    r := Some(Drawn(picks, rest));
  }

  // ---------------------------------------------------------------------------
  // Marking the artefact regions through the flattened region list
  // ---------------------------------------------------------------------------

  /** `planets.flatMap(p => p.regions)`: every region of the galaxy, planet by planet. */
  function Flat(ps: seq<Planet>): seq<Region>
  {
    if ps == [] then [] else ps[0].regions + Flat(ps[1..])
  }

  /** The region count summed over the planets (regionGlobalCount). */
  function SumCounts(ps: seq<Planet>): int
  {
    if ps == [] then 0 else ps[0].regionCount + SumCounts(ps[1..])
  }

  function Flagged(rg: Region): Region { rg.(hasArtefactUnknown := true) }

  function Unflag(rg: Region): Region { rg.(hasArtefactUnknown := false) }

  /** The planets with every artefact flag cleared: everything the marking loop must leave alone. */
  function Unflagged(ps: seq<Planet>): (r: seq<Planet>)
    ensures |r| == |ps|
  {
    if ps == [] then [] else [ps[0].(regions := UnflagAll(ps[0].regions))] + Unflagged(ps[1..])
  }

  function UnflagAll(rs: seq<Region>): (r: seq<Region>)
    ensures |r| == |rs| && forall j :: 0 <= j < |rs| ==> r[j] == Unflag(rs[j])
  {
    seq(|rs|, j requires 0 <= j < |rs| => Unflag(rs[j]))
  }

  /** The indices, in the flattened list, of the regions that hide an artefact. */
  function FlaggedSet(rs: seq<Region>): set<int>
  {
    set k | 0 <= k < |rs| && rs[k].hasArtefactUnknown
  }

  /** `flat[idx].region.hasArtefactUnknown = true`, written back into the planet that owns the region. */
  function SetFlag(ps: seq<Planet>, idx: int): (r: seq<Planet>)
    requires 0 <= idx < |Flat(ps)|
    ensures |r| == |ps|
    ensures Flat(r) == Flat(ps)[idx := Flagged(Flat(ps)[idx])]
    ensures Unflagged(r) == Unflagged(ps)
    decreases |ps|
  {
    assert Flat(ps) == ps[0].regions + Flat(ps[1..]);
    var rs := ps[0].regions;
    if idx < |rs| then
      var r := [ps[0].(regions := rs[idx := Flagged(rs[idx])])] + ps[1..];
      assert r[1..] == ps[1..];
      assert UnflagAll(r[0].regions) == UnflagAll(rs);
      r
    else
      var tail := SetFlag(ps[1..], idx - |rs|);
      var r := [ps[0]] + tail;
      assert r[1..] == tail;
      r
  }

  /** Flagging index idx adds exactly idx to the flagged set. */
  lemma SetFlagAdds(ps: seq<Planet>, idx: int)
    requires 0 <= idx < |Flat(ps)|
    ensures FlaggedSet(Flat(SetFlag(ps, idx))) == FlaggedSet(Flat(ps)) + {idx}
  {
    var before, after := Flat(ps), Flat(SetFlag(ps, idx));
    assert forall k :: 0 <= k < |after| ==> after[k].hasArtefactUnknown == (before[k].hasArtefactUnknown || k == idx);
  }

  /** Every region index in `picks` flagged, one after another. */
  function MarkAll(ps: seq<Planet>, picks: seq<int>): (r: seq<Planet>)
    requires Below(picks, |Flat(ps)|)
    ensures |Flat(r)| == |Flat(ps)|
    decreases |picks|
  {
    if picks == [] then ps else MarkAll(SetFlag(ps, picks[0]), picks[1..])
  }

  /** Marking changes nothing but the flags, and flags exactly the picked indices (on top of those already flagged). */
  lemma {:induction false} MarkAllFlags(ps: seq<Planet>, picks: seq<int>)
    requires Below(picks, |Flat(ps)|)
    ensures Unflagged(MarkAll(ps, picks)) == Unflagged(ps)
    ensures FlaggedSet(Flat(MarkAll(ps, picks))) == FlaggedSet(Flat(ps)) + set x | x in picks
    decreases |picks|
  {
    if picks != [] {
      SetFlagAdds(ps, picks[0]);
      MarkAllFlags(SetFlag(ps, picks[0]), picks[1..]);
      assert (set x | x in picks) == {picks[0]} + set x | x in picks[1..];
    }
  }

  /** generateGalaxy, for the stream the seed yields and the clock reading `now`. */
  function Generate(seed: int, s: seq<Unit>, index: int, now: int): Option<Galaxy>
    requires index >= 1
  {
    var d := GetDifficulty(index);
    DifficultyRanges(index);
    var count :- DrawInt(s, d.planetMin, d.planetMax);
    var planets :- RollPlanets(count.rest, index, d.hazardFrequency, 0, count.value, []);
    var targets :- ArtefactTargetsSpec(planets.rest, |Flat(planets.value)|);
    Some(Galaxy(index, seed, d.hazardFrequency, 0, MarkAll(planets.value, targets.value),
                SumCounts(planets.value), now))
  }

  /** `xs.map(f)` with a stream-drawing callback, item by item. */
  method MapWithDraws<A, T>(s: seq<Unit>, xs: seq<A>, f: (seq<Unit>, A, nat) -> Option<Drawn<T>>)
    returns (r: Option<Drawn<seq<T>>>)
    ensures r == MapDraw(s, xs, f, 0, [])
  {
    var rest := s;
    var ys: seq<T> := [];
    var i := 0;
    while i < |xs|
      invariant 0 <= i <= |xs| && |ys| == i
      invariant MapDraw(rest, xs, f, i, ys) == MapDraw(s, xs, f, 0, [])
    {
      var y := f(rest, xs[i], i);
      MapDrawStep(rest, xs, f, i, ys);
      if y.None? {
        return None;
      }
      ys := ys + [y.value.value];
      rest := y.value.rest;
      i := i + 1;
    }
    r := Some(Drawn(ys, rest));
  }

  /** One iteration of the planet loop of generateGalaxy. */
  method GeneratePlanet(s: seq<Unit>, index: int, freq: real, p: nat) returns (r: Option<Drawn<Planet>>)
    requires index >= 1
    ensures r == RollPlanet(s, index, freq, p)
  {
    var allowedSizes := AllowedSizes(index);
    if |s| == 0 {
      return None;
    }
    var sizeRule := allowedSizes[PickIndex(s[0], |allowedSizes|)];
    AllowedSizesWellFormed(index, sizeRule);
    var rest := s[1..];
    if |rest| == 0 {
      return None;
    }
    var regionCount := IntInRange(rest[0], sizeRule.min, sizeRule.max);
    var coords := MakeHexSpiral(regionCount);
    var regions := MapWithDraws(rest[1..], coords, RegionCallback(freq, p + 1));
    if regions.None? {
      return None;
    }
    var rs := regions.value.value;
    r := Some(Drawn(Planet(p + 1, sizeRule.size, regionCount, rs, rs[0].id, 0), regions.value.rest));
  }

  /** The marking loop of generateGalaxy: flags the target regions one by one. */
  method MarkTargets(planets: seq<Planet>, picks: seq<int>) returns (marked: seq<Planet>)
    requires Below(picks, |Flat(planets)|)
    ensures marked == MarkAll(planets, picks)
  {
    marked := planets;
    var k := 0;
    while k < |picks|
      invariant 0 <= k <= |picks|
      invariant |Flat(marked)| == |Flat(planets)|
      invariant MarkAll(marked, picks[k..]) == MarkAll(planets, picks)
    {
      assert picks[k..] == [picks[k]] + picks[k + 1..];
      marked := SetFlag(marked, picks[k]);
      k := k + 1;
    }
  }

  method GenerateGalaxy(seed: int, s: seq<Unit>, index: int, now: int) returns (g: Option<Galaxy>)
    requires index >= 1
    ensures g == Generate(seed, s, index, now)
  {
    var difficulty := GetDifficulty(index);
    DifficultyRanges(index);
    if |s| == 0 {
      return None;
    }
    var planetCount := IntInRange(s[0], difficulty.planetMin, difficulty.planetMax);
    var rest := s[1..];
    var freq := difficulty.hazardFrequency;
    var planets: seq<Planet> := [];
    var regionGlobalCount := 0;
    var p := 0;
    while p < planetCount
      invariant 0 <= p <= planetCount && |planets| == p
      invariant RollPlanets(rest, index, freq, p, planetCount, planets)
             == RollPlanets(s[1..], index, freq, 0, planetCount, [])
      invariant regionGlobalCount == SumCounts(planets)
    {
      var planet := GeneratePlanet(rest, index, freq, p);
      if planet.None? {
        return None;
      }
      SumCountsSnoc(planets, planet.value.value);
      planets := planets + [planet.value.value];
      regionGlobalCount := regionGlobalCount + planet.value.value.regionCount;
      rest := planet.value.rest;
      p := p + 1;
    }
    var targets := ArtefactTargets(rest, |Flat(planets)|);
    if targets.None? {
      return None;
    }
    var marked := MarkTargets(planets, targets.value.value);
    g := Some(Galaxy(index, seed, freq, 0, marked, regionGlobalCount, now));
  }

  lemma {:induction false} SumCountsSnoc(ps: seq<Planet>, pl: Planet)
    ensures SumCounts(ps + [pl]) == SumCounts(ps) + pl.regionCount
  {
    if ps != [] {
      assert (ps + [pl])[1..] == ps[1..] + [pl];
      SumCountsSnoc(ps[1..], pl);
    }
  }
}
