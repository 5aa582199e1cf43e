/**
 * What every galaxy produced by generateGalaxy looks like, and the fact that
 * a galaxy depends on nothing but the draws it consumes.
 */
module GenFacts {
  import opened Rng
  import opened Hex
  import opened Gen

  // ---------------------------------------------------------------------------
  // Shape of a generated galaxy
  // ---------------------------------------------------------------------------

  lemma {:induction false} UnflaggedAt(ps: seq<Planet>, k: int)
    requires 0 <= k < |ps|
    ensures Unflagged(ps)[k] == ps[k].(regions := UnflagAll(ps[k].regions))
    decreases |ps|
  {
    if k > 0 {
      UnflaggedAt(ps[1..], k - 1);
    }
  }

  /** Freshly rolled planets carry no artefact flag, so clearing the flags changes nothing. */
  lemma FreshPlanetsUnflagged(ps: seq<Planet>, index: int)
    requires index >= 1 && FreshPlanets(ps, index)
    ensures Unflagged(ps) == ps
  {
    forall k | 0 <= k < |ps|
      ensures Unflagged(ps)[k] == ps[k]
    {
      UnflaggedAt(ps, k);
      assert FreshPlanet(ps[k], k + 1, index);
      FreshRegionsUnflagged(ps[k].regions, k + 1, Spiral(ps[k].regionCount));
    }
  }

  lemma FreshRegionsUnflagged(rs: seq<Region>, p: nat, coords: seq<Coord>)
    requires |rs| <= |coords| && FreshRegions(rs, p, coords)
    ensures UnflagAll(rs) == rs
  {
    forall j | 0 <= j < |rs|
      ensures UnflagAll(rs)[j] == rs[j]
    {
      assert FreshRegion(rs[j], RegionId(p, j + 1), coords[j], j == 0);
    }
  }

  lemma {:induction false} FlatOfUnflagged(ps: seq<Planet>)
    ensures Flat(Unflagged(ps)) == UnflagAll(Flat(ps))
    decreases |ps|
  {
    if ps != [] {
      FlatOfUnflagged(ps[1..]);
      assert Unflagged(ps)[1..] == Unflagged(ps[1..]);
      assert Flat(ps) == ps[0].regions + Flat(ps[1..]);
    }
  }

  /** No region of freshly rolled planets is flagged. */
  lemma FreshPlanetsNotFlagged(ps: seq<Planet>, index: int)
    requires index >= 1 && FreshPlanets(ps, index)
    ensures FlaggedSet(Flat(ps)) == {}
  {
    FreshPlanetsUnflagged(ps, index);
    FlatOfUnflagged(ps);
  }

  /** The flattened region list has Σ regionCount entries, at least two per planet. */
  lemma {:induction false} FlatLength(ps: seq<Planet>)
    requires forall k :: 0 <= k < |ps| ==> |ps[k].regions| == ps[k].regionCount >= 2
    ensures |Flat(ps)| == SumCounts(ps) >= 2 * |ps|
    decreases |ps|
  {
    if ps != [] {
      FlatLength(ps[1..]);
    }
  }

  /** A list of distinct indices has as many elements as the set of its elements. */
  lemma {:induction false} DistinctCardinality(xs: seq<int>)
    requires Distinct(xs)
    ensures |set x | x in xs| == |xs|
    decreases |xs|
  {
    if xs != [] {
      DistinctCardinality(xs[1..]);
      assert (set x | x in xs) == {xs[0]} + set x | x in xs[1..];
      assert xs[0] !in set x | x in xs[1..];
    }
  }

  /**
   * A generated galaxy: planet count within the difficulty bounds, every planet
   * fresh apart from the artefact flags, totalRegions the sum of the region
   * counts (at least 4), and min(total, totalRegions) regions flagged for a
   * total in [3, 5] — hence between 3 and 5 of them.
   */
  lemma GeneratedGalaxy(seed: int, s: seq<Unit>, index: int, now: int)
    requires index >= 1 && Generate(seed, s, index, now).Some?
    ensures var g := Generate(seed, s, index, now).value;
      var d := GetDifficulty(index);
      && g.index == index && g.seed == seed && g.startedAt == now && g.planetVisitsCount == 0
      && g.hazardFrequency == d.hazardFrequency
      && d.planetMin <= |g.planets| <= d.planetMax
      && FreshPlanets(Unflagged(g.planets), index)
      && g.totalRegions == |Flat(g.planets)| >= 4
      && (exists total :: 3 <= total <= 5 && |FlaggedSet(Flat(g.planets))| == Min(total, g.totalRegions))
      && 3 <= |FlaggedSet(Flat(g.planets))| <= 5
  {
    var g := Generate(seed, s, index, now).value;
    var d := GetDifficulty(index);
    DifficultyRanges(index);
    var count := DrawInt(s, d.planetMin, d.planetMax).value;
    var planets := RollPlanets(count.rest, index, d.hazardFrequency, 0, count.value, []).value;
    var n := |Flat(planets.value)|;
    var targets := ArtefactTargetsSpec(planets.rest, n).value;
    assert g.planets == MarkAll(planets.value, targets.value);
    MarkAllFlags(planets.value, targets.value);
    RollPlanetsFresh(count.rest, index, d.hazardFrequency, 0, count.value, []);
    FreshPlanetsUnflagged(planets.value, index);
    FreshPlanetsNotFlagged(planets.value, index);
    FlatLength(planets.value);
    DistinctCardinality(targets.value);
    var total := IntInRange(planets.rest[0], 3, 5);
    assert |FlaggedSet(Flat(g.planets))| == Min(total, g.totalRegions);
  }

  // ---------------------------------------------------------------------------
  // Determinism: a galaxy reads only a prefix of its stream
  // ---------------------------------------------------------------------------

  /** The same draw, with more of the stream left over. */
  function Extend<T>(o: Option<Drawn<T>>, t: seq<Unit>): Option<Drawn<T>>
  {
    match o
    case None => None
    case Some(d) => Some(Drawn(d.value, d.rest + t))
  }

  lemma DrawIntExtends(s: seq<Unit>, t: seq<Unit>, lo: int, hi: int)
    requires lo <= hi && DrawInt(s, lo, hi).Some?
    ensures DrawInt(s + t, lo, hi) == Extend(DrawInt(s, lo, hi), t)
  {
    NextExtends(s, t);
  }

  lemma DrawPickExtends<T>(s: seq<Unit>, t: seq<Unit>, xs: seq<T>)
    requires |xs| > 0 && DrawPick(s, xs).Some?
    ensures DrawPick(s + t, xs) == Extend(DrawPick(s, xs), t)
  {
    NextExtends(s, t);
  }

  lemma RollResourcesExtends(s: seq<Unit>, t: seq<Unit>)
    requires RollResources(s).Some?
    ensures RollResources(s + t) == Extend(RollResources(s), t)
  {
    assert (s + t)[3..] == s[3..] + t;
    assert (s + t)[..3] == s[..3];
  }

  lemma RollHazardKindExtends(s: seq<Unit>, t: seq<Unit>, freq: real)
    requires RollHazardKind(s, freq).Some?
    ensures RollHazardKind(s + t, freq) == Extend(RollHazardKind(s, freq), t)
  {
    NextExtends(s, t);
    if s[0] < freq {
      NextExtends(s[1..], t);
    }
  }

  lemma RollHazardExtends(s: seq<Unit>, t: seq<Unit>, kind: HazardKind)
    requires RollHazard(s, kind).Some?
    ensures RollHazard(s + t, kind) == Extend(RollHazard(s, kind), t)
  {
    if kind != NoKind {
      NextExtends(s, t);
    }
  }

  lemma RollRegionExtends(s: seq<Unit>, t: seq<Unit>, freq: real, id: RegionId, coord: Coord, first: bool)
    requires RollRegion(s, freq, id, coord, first).Some?
    ensures RollRegion(s + t, freq, id, coord, first) == Extend(RollRegion(s, freq, id, coord, first), t)
  {
    var kind := RollHazardKind(s, freq).value;
    RollHazardKindExtends(s, t, freq);
    var resources := RollResources(kind.rest).value;
    RollResourcesExtends(kind.rest, t);
    var hazard := RollHazard(resources.rest, kind.value).value;
    RollHazardExtends(resources.rest, t, kind.value);
    DrawIntExtends(hazard.rest, t, 20, 75);
  }

  /** The region callback of planet p reads only a prefix of its stream. */
  lemma CallbackExtends(s: seq<Unit>, t: seq<Unit>, freq: real, p: nat, c: Coord, i: nat)
    requires RegionCallback(freq, p)(s, c, i).Some?
    ensures RegionCallback(freq, p)(s + t, c, i) == Extend(RegionCallback(freq, p)(s, c, i), t)
  {
    RollRegionExtends(s, t, freq, RegionId(p, i + 1), c, i == 0);
  }

  lemma {:induction false} RegionMapExtends(
    s: seq<Unit>, t: seq<Unit>, freq: real, p: nat, coords: seq<Coord>, i: nat, done: seq<Region>)
    requires i <= |coords| && |done| == i
    requires MapDraw(s, coords, RegionCallback(freq, p), i, done).Some?
    ensures MapDraw(s + t, coords, RegionCallback(freq, p), i, done)
         == Extend(MapDraw(s, coords, RegionCallback(freq, p), i, done), t)
    decreases |coords| - i
  {
    if i < |coords| {
      var f := RegionCallback(freq, p);
      MapDrawStep(s, coords, f, i, done);
      MapDrawStep(s + t, coords, f, i, done);
      CallbackExtends(s, t, freq, p, coords[i], i);
      var x := f(s, coords[i], i).value;
      RegionMapExtends(x.rest, t, freq, p, coords, i + 1, done + [x.value]);
    }
  }

  lemma RollRegionsExtends(s: seq<Unit>, t: seq<Unit>, freq: real, p: nat, coords: seq<Coord>)
    requires RollRegions(s, freq, p, coords).Some?
    ensures RollRegions(s + t, freq, p, coords) == Extend(RollRegions(s, freq, p, coords), t)
  {
    RegionMapExtends(s, t, freq, p, coords, 0, []);
  }

  lemma RollPlanetExtends(s: seq<Unit>, t: seq<Unit>, index: int, freq: real, p: nat)
    requires index >= 1 && RollPlanet(s, index, freq, p).Some?
    ensures RollPlanet(s + t, index, freq, p) == Extend(RollPlanet(s, index, freq, p), t)
  {
    var rule := DrawPick(s, AllowedSizes(index)).value;
    DrawPickExtends(s, t, AllowedSizes(index));
    AllowedSizesWellFormed(index, rule.value);
    var count := DrawInt(rule.rest, rule.value.min, rule.value.max).value;
    DrawIntExtends(rule.rest, t, rule.value.min, rule.value.max);
    RollRegionsExtends(count.rest, t, freq, p + 1, Spiral(count.value));
  }

  lemma {:induction false} RollPlanetsExtends(
    s: seq<Unit>, t: seq<Unit>, index: int, freq: real, p: nat, n: nat, done: seq<Planet>)
    requires index >= 1 && p <= n && |done| == p
    requires RollPlanets(s, index, freq, p, n, done).Some?
    ensures RollPlanets(s + t, index, freq, p, n, done) == Extend(RollPlanets(s, index, freq, p, n, done), t)
    decreases n - p
  {
    if p < n {
      var pl := RollPlanet(s, index, freq, p).value;
      RollPlanetExtends(s, t, index, freq, p);
      RollPlanetsExtends(pl.rest, t, index, freq, p + 1, n, done + [pl.value]);
    }
  }

  lemma {:induction false} TargetLoopExtends(s: seq<Unit>, t: seq<Unit>, goal: nat, n: int, picks: seq<int>)
    requires goal <= n && |picks| <= goal && Distinct(picks) && Below(picks, n)
    requires TargetLoop(s, goal, n, picks).Some?
    ensures TargetLoop(s + t, goal, n, picks) == Extend(TargetLoop(s, goal, n, picks), t)
    decreases |s|
  {
    if |picks| < goal {
      var x := DrawInt(s, 0, n - 1).value;
      DrawIntExtends(s, t, 0, n - 1);
      TargetLoopExtends(x.rest, t, goal, n, if x.value in picks then picks else picks + [x.value]);
    }
  }

  lemma ArtefactTargetsExtends(s: seq<Unit>, t: seq<Unit>, n: nat)
    requires ArtefactTargetsSpec(s, n).Some?
    ensures ArtefactTargetsSpec(s + t, n) == Extend(ArtefactTargetsSpec(s, n), t)
  {
    var total := DrawInt(s, 3, 5).value;
    DrawIntExtends(s, t, 3, 5);
    TargetLoopExtends(total.rest, t, Min(total.value, n), n, []);
  }

  /**
   * The same seed, draws and clock give the same galaxy, and a stream that
   * yields a galaxy yields the same galaxy with anything appended: generation
   * reads a prefix of the stream and nothing else.
   */
  lemma GenerateExtends(seed: int, s: seq<Unit>, t: seq<Unit>, index: int, now: int)
    requires index >= 1 && Generate(seed, s, index, now).Some?
    ensures Generate(seed, s + t, index, now) == Generate(seed, s, index, now)
  {
    var d := GetDifficulty(index);
    DifficultyRanges(index);
    var count := DrawInt(s, d.planetMin, d.planetMax).value;
    DrawIntExtends(s, t, d.planetMin, d.planetMax);
    var planets := RollPlanets(count.rest, index, d.hazardFrequency, 0, count.value, []).value;
    RollPlanetsExtends(count.rest, t, index, d.hazardFrequency, 0, count.value, []);
    ArtefactTargetsExtends(planets.rest, t, |Flat(planets.value)|);
  }
}
