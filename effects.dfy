/**
 * What each action does, region by region and coin by coin, what it refuses,
 * and the one-way progress of regions under every action but the jump.
 */
module Effects {
  import opened Rng
  import opened Gen
  import opened Market
  import opened Rules
  import opened GameState
  import opened GenFacts
  import opened StateFacts

  // ---------------------------------------------------------------------------
  // travelSelected
  // ---------------------------------------------------------------------------

  /**
   * A trip costs ceil((1 + 2 * distance) * fuelCostMultiplier), at least 1;
   * a refused trip changes nothing.
   */
  lemma TravelRefusal(st: State, now: int)
    requires Inv(st)
    ensures var t := TripOf(st);
      && t.cost as real >= (1 + t.distance * 2) as real * st.player.upgrades.fuelCostMultiplier
      && (t.cost - 1) as real < (1 + t.distance * 2) as real * st.player.upgrades.fuelCostMultiplier
      && t.cost >= 1
    ensures TravelRefused(st, TripOf(st)) ==> Travel(st, now) == st
  {
    var t := TripOf(st);
    var m := st.player.upgrades.fuelCostMultiplier;
    assert UpgradesOk(st.player.upgrades);
    assert t.cost == TravelCost(t.distance, m);
    TravelCostBounds(t.distance, m);
  }

  /** The fuel a trip costs is the product rounded up, and at least 1 with the multiplier at its floor of 0.6 or above. */
  lemma TravelCostBounds(distance: nat, multiplier: real)
    requires multiplier >= 0.6
    ensures var c := TravelCost(distance, multiplier);
      && (1 + distance * 2) as real * multiplier <= c as real
      && (c - 1) as real < (1 + distance * 2) as real * multiplier
      && c >= 1
  {
  }

  /**
   * A trip that goes ahead costs exactly its fuel and never more than the
   * player has; the player stands on the destination, which is discovered,
   * and a lapsed time hazard there is re-armed.  Nothing else in the galaxy
   * changes, and of the player only the fuel and the shield and scanner wear.
   */
  lemma TravelEffect(st: State, now: int)
    requires Inv(st) && !TravelRefused(st, TripOf(st))
    ensures var t := TripOf(st);
      var r := Travel(st, now);
      var before := st.galaxy.planets[t.planet];
      var after := r.galaxy.planets[t.planet];
      var to := before.regions[t.to];
      && r.player.fuel == st.player.fuel - t.cost as real
      && r.player.fuel >= 0.0
      && after.currentRegionId == to.id
      && after.regions[t.to].discovered
      && (Rearms(to, now) ==> after.regions[t.to].hazard == Time(to.hazard.seconds, now + to.hazard.seconds * 1000))
      && (!Rearms(to, now) ==> after.regions[t.to].hazard == to.hazard)
      && after.regions[t.to].(discovered := to.discovered, hazard := to.hazard) == to
      && |after.regions| == |before.regions|
      && (forall j :: 0 <= j < |before.regions| && j != t.to ==> after.regions[j] == before.regions[j])
      && |r.galaxy.planets| == |st.galaxy.planets|
      && (forall p :: 0 <= p < |st.galaxy.planets| && p != t.planet ==> r.galaxy.planets[p] == st.galaxy.planets[p])
      && r.player.modules.laser == st.player.modules.laser
      && r.player.(fuel := st.player.fuel, modules := st.player.modules) == st.player
  {
  }

  // ---------------------------------------------------------------------------
  // harvest
  // ---------------------------------------------------------------------------

  /** The current region the harvest works on. */
  function HarvestRegion(st: State): Region
    requires Inv(st)
  {
    st.galaxy.planets[HarvestSite(st).0].regions[HarvestSite(st).1]
  }

  /**
   * A harvest is a no-op on a harvested region, under an active time
   * hazard, or before nextHarvestAt.
   */
  lemma HarvestRefusal(st: State, now: int, u: Unit)
    requires Inv(st) && !CanHarvest(HarvestRegion(st), now)
    ensures Harvest(st, now, u) == st
  {
  }

  /**
   * A harvest that goes ahead, on the region: progress grows by 8 + 0.8 per
   * laser level and stops at 100, reached exactly when the region becomes
   * harvested; the next harvest waits the seconds of the tier for the galaxy;
   * and the planet's completion is recomputed.
   */
  lemma HarvestProgress(st: State, now: int, u: Unit)
    requires Inv(st) && CanHarvest(HarvestRegion(st), now)
    ensures var (pi, ri) := HarvestSite(st);
      var rg := HarvestRegion(st);
      var r := Harvest(st, now, u);
      var after := r.galaxy.planets[pi].regions[ri];
      var key := HarvestResource(rg.resources, u);
      var tier := Tiers(key)[if st.galaxy.index >= 35 then 2 else if st.galaxy.index >= 15 then 1 else 0];
      var laser := st.player.modules.laser.level;
      && (after.harvestedPct == 100.0 || after.harvestedPct == rg.harvestedPct + 8.0 + 0.8 * laser as real)
      && rg.harvestedPct < after.harvestedPct <= 100.0
      && (after.harvested <==> after.harvestedPct == 100.0)
      && after.nextHarvestAt == now + tier.waitSeconds * 1000
      && r.galaxy.planets[pi].completedPct == PlanetCompletion(r.galaxy.planets[pi].regions)
  {
    var key := HarvestResource(HarvestRegion(st).resources, u);
    TierForTable(key, st.galaxy.index);
    var (pi, ri) := HarvestSite(st);
    assert RegionOk(st.galaxy.planets[pi].regions[ri]);
  }

  /**
   * A harvest that goes ahead, for the player: the yield is the base yield of
   * the tier for the galaxy plus the laser level, of the resource drawn (metal
   * for a barren region), with 15% of it in coins, rounded down; no other
   * resource changes; and the fuel refund of 8, capped at the tank, comes with
   * the completing harvest only.
   */
  lemma HarvestYield(st: State, now: int, u: Unit)
    requires Inv(st) && CanHarvest(HarvestRegion(st), now)
    ensures var (pi, ri) := HarvestSite(st);
      var rg := HarvestRegion(st);
      var r := Harvest(st, now, u);
      var key := HarvestResource(rg.resources, u);
      var tier := Tiers(key)[if st.galaxy.index >= 35 then 2 else if st.galaxy.index >= 15 then 1 else 0];
      var gain := tier.baseYield + st.player.modules.laser.level;
      && (rg.resources == [] ==> key == Metal)
      && r.player.resources.Get(key) == st.player.resources.Get(key) + gain
      && (forall k :: k != key ==> r.player.resources.Get(k) == st.player.resources.Get(k))
      && r.player.coins == st.player.coins + (gain as real * 0.15).Floor as real
      && r.player.fuel == (if r.galaxy.planets[pi].regions[ri].harvested then RMin(st.player.maxFuel as real, st.player.fuel + 8.0) else st.player.fuel)
  {
    var key := HarvestResource(HarvestRegion(st).resources, u);
    TierForTable(key, st.galaxy.index);
    ReapedYield(st.player, key, st.galaxy.index);
  }

  /** What a harvest pays the player: the yield of one resource and 15% of it in coins; the wear touches neither. */
  lemma ReapedYield(p: Player, key: Resource, galaxyIndex: int)
    ensures var r := Reaped(p, key, galaxyIndex);
      var gain := Gain(key, galaxyIndex, p.modules.laser.level);
      && r.resources.Get(key) == p.resources.Get(key) + gain
      && (forall k :: k != key ==> r.resources.Get(k) == p.resources.Get(k))
      && r.coins == p.coins + (gain as real * 0.15).Floor as real
      && r.fuel == p.fuel && r.maxFuel == p.maxFuel
  {
  }

  /**
   * With the built-in tables, a harvest of metal in galaxy 1 with a level-1
   * laser yields 9 metal and 1 coin, and the next harvest waits one second.
   */
  lemma HarvestExample(st: State, now: int, u: Unit)
    requires Inv(st) && CanHarvest(HarvestRegion(st), now)
    requires st.galaxy.index == 1 && st.player.modules.laser.level == 1
    requires HarvestResource(HarvestRegion(st).resources, u) == Metal
    ensures var r := Harvest(st, now, u);
      && r.player.resources.metal == st.player.resources.metal + 9
      && r.player.coins == st.player.coins + 1.0
      && r.galaxy.planets[HarvestSite(st).0].regions[HarvestSite(st).1].nextHarvestAt == now + 1000
  {
    HarvestYield(st, now, u);
    HarvestProgress(st, now, u);
    assert (9 as real * 0.15).Floor == 1;
  }

  /**
   * Fuel only ever comes back from the harvest that completes a region; a
   * completed region cannot be harvested again, and regions stay completed
   * under every action but the jump (ApplyAdvances), so the refund comes once
   * per region.
   */
  lemma RefundOnce(st: State, now: int, u: Unit)
    requires Inv(st)
    ensures Harvest(st, now, u).player.fuel != st.player.fuel ==>
              && !HarvestRegion(st).harvested
              && Harvest(st, now, u).galaxy.planets[HarvestSite(st).0].regions[HarvestSite(st).1].harvested
    ensures HarvestRegion(st).harvested ==> Harvest(st, now, u) == st
  {
    if CanHarvest(HarvestRegion(st), now) {
      HarvestYield(st, now, u);
      var ps := Harvest(st, now, u).player;
      if ps.fuel != st.player.fuel {
        ReapedOk(st.player, HarvestResource(HarvestRegion(st).resources, u), st.galaxy.index);
      }
    }
  }

  // ---------------------------------------------------------------------------
  // The artefact lifecycle
  // ---------------------------------------------------------------------------

  /** The selected region of the current planet. */
  function SelectedRegion(st: State): Region
    requires Inv(st)
  {
    st.galaxy.planets[SelectedSite(st).0].regions[SelectedSite(st).1]
  }

  /**
   * Unlocking starts the clock on a flagged, unrevealed region that has not
   * started yet, and does nothing otherwise.
   */
  lemma UnlockEffect(st: State, now: int)
    requires Inv(st)
    ensures var rg := SelectedRegion(st);
      var (pi, ri) := SelectedSite(st);
      var r := UnlockArtefact(st, now);
      && (Unrevealed(rg) && rg.artefactUnlockStart == 0 ==>
            r == st.(galaxy := WithPlanet(st.galaxy, pi, st.galaxy.planets[pi].(regions := st.galaxy.planets[pi].regions[ri := rg.(artefactUnlockStart := now)]))))
      && (!(Unrevealed(rg) && rg.artefactUnlockStart == 0) ==> r == st)
  {
  }

  /**
   * finishArtefact reveals the artefact the two draws give, hands it to the
   * player and adds its item to the collection of its category, which keeps
   * having no duplicate; the other collections stay as they are.
   */
  lemma FinishEffect(st: State, pi: nat, ri: nat, rarityDraw: Unit, itemDraw: Unit)
    requires pi < |st.galaxy.planets| && ri < |st.galaxy.planets[pi].regions|
    requires NoDuplicates(st.collections.dna) && NoDuplicates(st.collections.fossil) && NoDuplicates(st.collections.life)
    ensures var r := FinishArtefact(st, pi, ri, rarityDraw, itemDraw);
      var a := RollArtefact(rarityDraw, itemDraw);
      && r.galaxy.planets[pi].regions[ri] == st.galaxy.planets[pi].regions[ri].(artefactRevealed := Some(a))
      && r.player.artefacts == st.player.artefacts + [a]
      && a.item in r.collections.Get(a.category)
      && NoDuplicates(r.collections.Get(a.category))
      && (forall c :: c != a.category ==> r.collections.Get(c) == st.collections.Get(c))
  {
    var c := RollArtefact(rarityDraw, itemDraw).category;
    assert NoDuplicates(st.collections.Get(c)) by {
      match c
      case DNA =>
      case Fossil =>
      case Life =>
    }
  }

  /**
   * A frame moves lastTick to now and regenerates the player over the
   * elapsed seconds (RegenerateFormula), whatever else it does.
   */
  lemma TickRegenerates(st: State, now: int, rarityDraw: Unit, itemDraw: Unit)
    requires Inv(st)
    ensures var r := Tick(st, now, rarityDraw, itemDraw);
      var p := Regenerate(st.player, (now - st.lastTick) as real / 1000.0, ColonisedCount(st.journal));
      r.lastTick == now && r.player.coins == p.coins && r.player.fuel == p.fuel
  {
    var dt := (now - st.lastTick) as real / 1000.0;
    var ticked := st.(lastTick := now, player := Regenerate(st.player, dt, ColonisedCount(st.journal)));
    var (pi, ri) := SelectedSite(st);
    var id := SelectedRegion(st).id;
    if UnlockDue(SelectedRegion(st), now) {
      assert Tick(st, now, rarityDraw, itemDraw) == FinishArtefact(ticked, pi, ri, rarityDraw, itemDraw).(selectedRegionId := id);
    } else {
      assert Tick(st, now, rarityDraw, itemDraw) == ticked.(selectedRegionId := id);
    }
  }

  /**
   * Over dt seconds with c colonised galaxies, the player earns dt * c * 0.5
   * coins and regenerates (fuelRegenBase + 0.02 * c) * dt fuel, up to the tank.
   */
  lemma RegenerateFormula(p: Player, dt: real, colonised: nat)
    ensures var c := colonised as real;
      && Regenerate(p, dt, colonised).coins == p.coins + dt * c * 0.5
      && Regenerate(p, dt, colonised).fuel == RMin(p.maxFuel as real, p.fuel + (p.fuelRegenBase + c * 0.02) * dt)
      && Regenerate(p, dt, colonised).(coins := p.coins, fuel := p.fuel) == p
  {
  }

  /**
   * `loop` takes the elapsed time as it comes: over a frame dated before the
   * last one (the clock set back, dt < 0; TickRegenerates) a colonist's income
   * turns into a loss, and fuel falls below zero once the drain exceeds the
   * fuel held.
   */
  lemma RegenerateBackwards(p: Player, dt: real, colonised: nat)
    requires dt < 0.0
    ensures var r := Regenerate(p, dt, colonised);
      var c := colonised as real;
      && (c > 0.0 ==> r.coins < p.coins)
      && (p.fuel + (p.fuelRegenBase + c * 0.02) * dt < 0.0 ==> r.fuel < 0.0)
  {
    var c := colonised as real;
    if c > 0.0 {
      assert dt * c < 0.0;
    }
  }

  /**
   * When the selected region's unlock has run its course, the frame reveals
   * its artefact (FinishEffect); otherwise the galaxy, the artefacts and the
   * collections stay.
   */
  lemma TickReveals(st: State, now: int, rarityDraw: Unit, itemDraw: Unit)
    requires Inv(st)
    ensures var r := Tick(st, now, rarityDraw, itemDraw);
      var (pi, ri) := SelectedSite(st);
      var a := RollArtefact(rarityDraw, itemDraw);
      && (UnlockDue(SelectedRegion(st), now) ==>
            && r.galaxy.planets[pi].regions[ri] == SelectedRegion(st).(artefactRevealed := Some(a))
            && r.player.artefacts == st.player.artefacts + [a]
            && a.item in r.collections.Get(a.category))
      && (!UnlockDue(SelectedRegion(st), now) ==>
            r.galaxy == st.galaxy && r.player.artefacts == st.player.artefacts && r.collections == st.collections)
      && r.selectedRegionId == SelectedRegion(st).id
  {
    var dt := (now - st.lastTick) as real / 1000.0;
    var ticked := st.(lastTick := now, player := Regenerate(st.player, dt, ColonisedCount(st.journal)));
    var (pi, ri) := SelectedSite(st);
    if UnlockDue(SelectedRegion(st), now) {
      FinishEffect(ticked, pi, ri, rarityDraw, itemDraw);
    }
  }

  // ---------------------------------------------------------------------------
  // One-way progress
  // ---------------------------------------------------------------------------

  /**
   * Region b is region a further on: same region, same flag, no less
   * harvested, still harvested if it was, the same artefact if one was
   * revealed.
   */
  predicate RegionAdvanced(a: Region, b: Region)
  {
    && a.id == b.id
    && a.hasArtefactUnknown == b.hasArtefactUnknown
    && a.harvestedPct <= b.harvestedPct
    && (a.harvested ==> b.harvested)
    && (a.artefactRevealed.Some? ==> b.artefactRevealed == a.artefactRevealed)
  }

  /** Galaxy h is galaxy g with every region further on. */
  predicate Advanced(g: Galaxy, h: Galaxy)
  {
    && g.index == h.index
    && |g.planets| == |h.planets|
    && forall p :: 0 <= p < |g.planets| ==>
         && |g.planets[p].regions| == |h.planets[p].regions|
         && forall j :: 0 <= j < |g.planets[p].regions| ==> RegionAdvanced(g.planets[p].regions[j], h.planets[p].regions[j])
  }

  lemma {:induction false} AdvancedTransitive(f: Galaxy, g: Galaxy, h: Galaxy)
    requires Advanced(f, g) && Advanced(g, h)
    ensures Advanced(f, h)
  {
    forall p | 0 <= p < |f.planets|
      ensures |f.planets[p].regions| == |h.planets[p].regions|
      ensures forall j :: 0 <= j < |f.planets[p].regions| ==> RegionAdvanced(f.planets[p].regions[j], h.planets[p].regions[j])
    {
      forall j | 0 <= j < |f.planets[p].regions|
        ensures RegionAdvanced(f.planets[p].regions[j], h.planets[p].regions[j])
      {
        assert RegionAdvanced(f.planets[p].regions[j], g.planets[p].regions[j]);
        assert RegionAdvanced(g.planets[p].regions[j], h.planets[p].regions[j]);
      }
    }
  }

  /** Replacing one region by a region further on advances the galaxy. */
  lemma ReplaceAdvances(g: Galaxy, pi: nat, ri: nat, pl: Planet)
    requires pi < |g.planets| && ri < |g.planets[pi].regions|
    requires |pl.regions| == |g.planets[pi].regions|
    requires forall j :: 0 <= j < |pl.regions| && j != ri ==> pl.regions[j] == g.planets[pi].regions[j]
    requires RegionAdvanced(g.planets[pi].regions[ri], pl.regions[ri])
    ensures Advanced(g, WithPlanet(g, pi, pl))
  {
    var h := WithPlanet(g, pi, pl);
    forall p | 0 <= p < |g.planets|
      ensures forall j :: 0 <= j < |g.planets[p].regions| ==> RegionAdvanced(g.planets[p].regions[j], h.planets[p].regions[j])
    {
      if p == pi {
        forall j | 0 <= j < |g.planets[p].regions| ensures RegionAdvanced(g.planets[p].regions[j], h.planets[p].regions[j]) {
          if j != ri {
            assert h.planets[p].regions[j] == g.planets[p].regions[j];
          }
        }
      }
    }
  }

  /** travelSelected only moves regions further on. */
  lemma TravelAdvances(st: State, now: int)
    requires Inv(st)
    ensures Advanced(st.galaxy, Travel(st, now).galaxy)
  {
    var t := TripOf(st);
    if !TravelRefused(st, t) {
      var pl := st.galaxy.planets[t.planet];
      ReplaceAdvances(st.galaxy, t.planet, t.to, Moved(pl, t.to, now));
    }
  }

  /** harvest only moves regions further on. */
  lemma HarvestAdvances(st: State, now: int, u: Unit)
    requires Inv(st)
    ensures Advanced(st.galaxy, Harvest(st, now, u).galaxy)
  {
    var (pi, ri) := HarvestSite(st);
    var pl := st.galaxy.planets[pi];
    var rg := pl.regions[ri];
    if CanHarvest(rg, now) {
      var key := HarvestResource(rg.resources, u);
      var tier := TierFor(Tiers(key), st.galaxy.index);
      assert RegionOk(rg);
      HarvestedOk(rg, now, tier, st.player.modules.laser.level);
      var regions := pl.regions[ri := Harvested(rg, now, tier, st.player.modules.laser.level)];
      ReplaceAdvances(st.galaxy, pi, ri, pl.(regions := regions, completedPct := PlanetCompletion(regions)));
    }
  }

  /** unlockArtefact only moves regions further on. */
  lemma UnlockAdvances(st: State, now: int)
    requires Inv(st)
    ensures Advanced(st.galaxy, UnlockArtefact(st, now).galaxy)
  {
    var (pi, ri) := SelectedSite(st);
    var pl := st.galaxy.planets[pi];
    var rg := pl.regions[ri];
    if Unrevealed(rg) && rg.artefactUnlockStart == 0 {
      ReplaceAdvances(st.galaxy, pi, ri, pl.(regions := pl.regions[ri := rg.(artefactUnlockStart := now)]));
    }
  }

  /** A frame only moves regions further on. */
  lemma TickAdvances(st: State, now: int, rarityDraw: Unit, itemDraw: Unit)
    requires Inv(st)
    ensures Advanced(st.galaxy, Tick(st, now, rarityDraw, itemDraw).galaxy)
  {
    var (pi, ri) := SelectedSite(st);
    var pl := st.galaxy.planets[pi];
    var rg := pl.regions[ri];
    if UnlockDue(rg, now) {
      var a := RollArtefact(rarityDraw, itemDraw);
      ReplaceAdvances(st.galaxy, pi, ri, pl.(regions := pl.regions[ri := rg.(artefactRevealed := Some(a))]));
    }
  }

  /**
   * After a frame the selection names the region the game was showing: the
   * selected id if the current planet has such a region, the planet's first
   * region otherwise; and a second frame resolves it to the same region.
   */
  lemma TickSettlesSelection(st: State, now: int, rarityDraw: Unit, itemDraw: Unit)
    requires Inv(st)
    ensures var r := Tick(st, now, rarityDraw, itemDraw);
      var rs := st.galaxy.planets[CurrentPlanet(st)].regions;
      && ((exists j :: 0 <= j < |rs| && rs[j].id == st.selectedRegionId) ==> r.selectedRegionId == st.selectedRegionId)
      && ((forall j :: 0 <= j < |rs| ==> rs[j].id != st.selectedRegionId) ==> r.selectedRegionId == rs[0].id)
      && Inv(r) && SelectedSite(r) == SelectedSite(st)
  {
    var r := Tick(st, now, rarityDraw, itemDraw);
    TickReveals(st, now, rarityDraw, itemDraw);
    TickKeepsInv(st, now, rarityDraw, itemDraw);
    TickKeepsIds(st, now, rarityDraw, itemDraw);
    var pi := CurrentPlanet(st);
    PlanetIndexByIds(st.galaxy.planets, r.galaxy.planets, st.currentPlanetId);
    RegionIndexOfResolved(st.galaxy.planets[pi].regions, r.galaxy.planets[pi].regions, st.selectedRegionId);
  }

  /** A frame keeps every planet's id and every region's id in place. */
  lemma TickKeepsIds(st: State, now: int, rarityDraw: Unit, itemDraw: Unit)
    requires Inv(st)
    ensures var ps, qs := st.galaxy.planets, Tick(st, now, rarityDraw, itemDraw).galaxy.planets;
      && |qs| == |ps|
      && (forall k :: 0 <= k < |ps| ==> qs[k].id == ps[k].id)
      && (forall k :: 0 <= k < |ps| ==> |qs[k].regions| == |ps[k].regions|)
      && (forall k, j :: 0 <= k < |ps| && 0 <= j < |ps[k].regions| ==> qs[k].regions[j].id == ps[k].regions[j].id)
  {
    var (pi, ri) := SelectedSite(st);
    var ps, qs := st.galaxy.planets, Tick(st, now, rarityDraw, itemDraw).galaxy.planets;
    if UnlockDue(SelectedRegion(st), now) {
      var a := RollArtefact(rarityDraw, itemDraw);
      var pl := ps[pi];
      assert qs == ps[pi := pl.(regions := pl.regions[ri := pl.regions[ri].(artefactRevealed := Some(a))])];
    } else {
      assert qs == ps;
    }
  }

  /** The first planet with an id is found at the same place among planets with the same ids. */
  lemma PlanetIndexByIds(ps: seq<Planet>, qs: seq<Planet>, id: nat)
    requires |ps| > 0 && |qs| == |ps|
    requires forall k :: 0 <= k < |ps| ==> qs[k].id == ps[k].id
    ensures PlanetIndex(qs, id) == PlanetIndex(ps, id)
  {
    var i, j := PlanetIndex(ps, id), PlanetIndex(qs, id);
    if exists k :: 0 <= k < |ps| && ps[k].id == id {
      assert qs[i].id == id;
      assert ps[j].id == id;
    } else {
      assert forall k :: 0 <= k < |qs| ==> qs[k].id != id;
    }
  }

  /**
   * Resolving the id of the region a lookup found, among regions with the
   * same ids, finds that region again.
   */
  lemma RegionIndexOfResolved(rs: seq<Region>, ss: seq<Region>, id: RegionId)
    requires |rs| > 0 && |ss| == |rs|
    requires forall k :: 0 <= k < |rs| ==> ss[k].id == rs[k].id
    ensures RegionIndex(ss, rs[RegionIndex(rs, id)].id) == RegionIndex(rs, id)
  {
    var i := RegionIndex(rs, id);
    var j := RegionIndex(ss, rs[i].id);
    assert ss[i].id == rs[i].id;
    if exists k :: 0 <= k < |rs| && rs[k].id == id {
      assert rs[j].id == rs[i].id;
    } else {
      assert i == 0;
    }
  }

  /** Every event but the jump only moves regions further on. */
  lemma ApplyAdvances(st: State, e: Event)
    requires Inv(st) && Enabled(st, e) && !e.Jump?
    ensures Advanced(st.galaxy, Apply(st, e).galaxy)
  {
    match e
    case TravelSelected(now) => TravelAdvances(st, now);
    case HarvestAt(now, u) => HarvestAdvances(st, now, u);
    case Unlock(now) => UnlockAdvances(st, now);
    case Frame(now, rd, id) => TickAdvances(st, now, rd, id);
    case PickPlanet(id, draws) => SamePlanetsAdvanced(st.galaxy, SelectPlanet(st, id, draws).galaxy);
    case PickRegion(id) => SamePlanetsAdvanced(st.galaxy, SelectRegion(st, id).galaxy);
    case MarketOpened => SamePlanetsAdvanced(st.galaxy, OpenMarket(st).galaxy);
    case Jump(g, draws) =>
    case ModuleBought(n, kind) => SamePlanetsAdvanced(st.galaxy, UpgradeModule(st, n, kind).galaxy);
    case Bought(kind) => SamePlanetsAdvanced(st.galaxy, Buy(st, kind).galaxy);
    case ArtefactSold => SamePlanetsAdvanced(st.galaxy, SellArtefact(st).galaxy);
    case ResourceSold(r) => SamePlanetsAdvanced(st.galaxy, SellResource(st, r).galaxy);
  }

  /** A galaxy whose planets are untouched is trivially further on. */
  lemma SamePlanetsAdvanced(g: Galaxy, h: Galaxy)
    requires g.index == h.index && g.planets == h.planets
    ensures Advanced(g, h)
  {
  }

  // ---------------------------------------------------------------------------
  // Navigation and the jump
  // ---------------------------------------------------------------------------

  /** selectPlanet makes `id` current and counts exactly one more planet visit; nothing else changes but the market. */
  lemma SelectPlanetEffect(st: State, id: nat, draws: seq<Unit>)
    requires |draws| >= 8
    ensures var r := SelectPlanet(st, id, draws);
      && r.currentPlanetId == id
      && r.galaxy.planetVisitsCount == st.galaxy.planetVisitsCount + 1
      && r.galaxy.(planetVisitsCount := st.galaxy.planetVisitsCount) == st.galaxy
      && r.(currentPlanetId := st.currentPlanetId, galaxy := st.galaxy, market := st.market) == st
  {
  }

  /**
   * The journal entry of the galaxy being left: completion is a percentage,
   * 100 exactly when every region is fully harvested; the galaxy counts as
   * colonised exactly when it is complete and every flagged region is
   * revealed; the rarity counts add up to the artefacts held; and the total
   * extracted is the sum of the stock.
   */
  lemma EntryFacts(st: State)
    requires Inv(st)
    ensures var e := Entry(st);
      var flat := Flat(st.galaxy.planets);
      && e.index == st.galaxy.index
      && 0 <= e.completedPct <= 100
      && (e.completedPct == 100 <==> forall j :: 0 <= j < |flat| ==> flat[j].harvestedPct == 100.0)
      && (e.colonised <==> e.completedPct == 100 && forall rg :: rg in flat ==> !rg.hasArtefactUnknown || rg.artefactRevealed.Some?)
      && e.artefacts.common + e.artefacts.rare + e.artefacts.ultra == |st.player.artefacts|
      && e.totalExtracted == st.player.resources.metal + st.player.resources.energy + st.player.resources.organic
  {
    GalaxyRegions(st.galaxy);
    GalaxyCompletionBounds(st.galaxy);
    CountRaritiesTotal(st.player.artefacts);
  }

  /**
   * jumpGalaxy appends exactly one journal entry, for the galaxy being left,
   * moves to the next index, and puts the player on the first region of the
   * first planet of the new galaxy; the player and the collections stay.
   */
  lemma JumpEffect(st: State, g: Galaxy, draws: seq<Unit>)
    requires Inv(st) && GalaxyOk(g) && |draws| >= 8
    ensures var r := JumpGalaxy(st, g, draws);
      && r.journal == st.journal + [Entry(st)]
      && r.galaxyIndex == st.galaxyIndex + 1
      && r.galaxy == g
      && CurrentPlanet(r) == 0
      && SelectedSite(r) == (0, 0)
      && r.player == st.player && r.collections == st.collections
  {
    var r := JumpGalaxy(st, g, draws);
    JumpKeepsInv(st, g, draws);
    assert r.galaxy.planets[0].id == r.currentPlanetId;
    assert r.galaxy.planets[0].regions[0].id == r.selectedRegionId;
  }

  /**
   * The jump through generateGalaxy lands in the galaxy built for the next
   * index: unvisited, started now, with a planet count in that galaxy's
   * difficulty range, fresh planets, and 3 to 5 flagged regions; the galaxy
   * left behind is the journal's new last entry.
   */
  lemma GeneratedJumpEffect(st: State, next: int, seed: int, stream: seq<Unit>, now: int, draws: seq<Unit>)
    requires Inv(st) && next == st.galaxyIndex + 1 && |draws| >= 8
    requires Generate(seed, stream, next, now).Some?
    ensures var g := NewGalaxy(seed, stream, next, now);
      var r := JumpGalaxy(st, g, draws);
      var d := GetDifficulty(next);
      && r.galaxy == Generate(seed, stream, next, now).value
      && r.galaxy.index == r.galaxyIndex == st.galaxyIndex + 1
      && r.journal == st.journal + [Entry(st)]
      && r.galaxy.seed == seed && r.galaxy.startedAt == now && r.galaxy.planetVisitsCount == 0
      && d.planetMin <= |r.galaxy.planets| <= d.planetMax
      && FreshPlanets(Unflagged(r.galaxy.planets), next)
      && 3 <= |FlaggedSet(Flat(r.galaxy.planets))| <= 5
  {
    GeneratedGalaxy(seed, stream, next, now);
  }

  // ---------------------------------------------------------------------------
  // Upgrades, purchases and sales
  // ---------------------------------------------------------------------------

  /**
   * A module upgrade costs 80 per level, 90 or 70 coins and is refused
   * without them; once paid, only that module changes, and the durability
   * upgrade leaves it at its new maximum.
   */
  lemma UpgradeEffect(st: State, n: ModuleName, kind: ModuleUpgrade)
    ensures var m := st.player.modules.Get(n);
      var cost := match kind case LevelUp => 80 * m.level case DurabilityUp => 90 case DecayUp => 70;
      var r := UpgradeModule(st, n, kind);
      && (st.player.coins < cost as real ==> r == st)
      && (st.player.coins >= cost as real ==>
            && r.player.coins == st.player.coins - cost as real
            && r.player.modules.Get(n) == Upgraded(m, kind)
            && (forall o :: o != n ==> r.player.modules.Get(o) == st.player.modules.Get(o))
            && r.player.(coins := st.player.coins, modules := st.player.modules) == st.player
            && (kind == DurabilityUp ==> r.player.modules.Get(n).durability == r.player.modules.Get(n).durabilityMax as real)
            && r.(player := st.player) == st)
  {
  }

  /**
   * A purchase is refused without the coins, and the scanner upgrade also
   * at level 2; once paid, recovery fills the tank, the tank grows by 12 and
   * is filled, efficiency lowers the fuel cost multiplier by 0.08 to no less
   * than 0.6, the market deal raises the sell bonus by 0.05 and lowers the
   * recovery discount by 0.05 to no less than 0.75, and the scanner goes up
   * one level. The market is then opened again: only a paid market deal
   * changes it, rounding every price again for the new bonus from the same
   * multipliers.
   */
  lemma BuyEffect(st: State, kind: Purchase)
    requires PricedWith(st.market, st.player.upgrades.marketSellBonus)
    ensures var p := st.player;
      var u := p.upgrades;
      var cost := PurchaseCost(p, kind);
      var r := Buy(st, kind);
      var q := r.player;
      && cost == (match kind
                  case Recovery => EmergencyRecoveryCost(p.maxFuel, u.emergencyDiscount)
                  case Tank => 150 case Efficiency => 140 case MarketDeal => 170 case ScannerInfo => 120)
      && (p.coins < cost as real || (kind == ScannerInfo && u.scannerInfoLevel >= 2) ==> r == st)
      && (p.coins >= cost as real && !(kind == ScannerInfo && u.scannerInfoLevel >= 2) ==>
            && q.coins == p.coins - cost as real
            && r.(player := st.player, market := st.market) == st
            && (kind != MarketDeal ==> r.market == st.market)
            && (kind == MarketDeal ==>
                  && r.market.multipliers == st.market.multipliers
                  && r.market.insaneBoost == st.market.insaneBoost
                  && (forall k :: r.market.prices[k] == Price(k, st.market.multipliers[k], u.marketSellBonus + 0.05)))
            && (kind == Recovery ==> q == p.(coins := q.coins, fuel := p.maxFuel as real))
            && (kind == Tank ==> q.maxFuel == p.maxFuel + 12 && q.fuel == q.maxFuel as real)
            && (kind == Efficiency ==> q.upgrades.fuelCostMultiplier == RMax(0.6, u.fuelCostMultiplier - 0.08))
            && (kind == MarketDeal ==>
                  q.upgrades.marketSellBonus == u.marketSellBonus + 0.05 &&
                  q.upgrades.emergencyDiscount == RMax(0.75, u.emergencyDiscount - 0.05))
            && (kind == ScannerInfo ==> q.upgrades.scannerInfoLevel == u.scannerInfoLevel + 1))
  {
    if Buy(st, kind).player.upgrades.marketSellBonus == st.player.upgrades.marketSellBonus {
      RepriceSameBonus(st.market, st.player.upgrades.marketSellBonus);
    }
  }

  /** A paid market deal raises no price: each is its multiplier priced with a larger bonus. */
  lemma MarketDealRaisesPrices(st: State)
    requires Inv(st) && !BuyRefused(st.player, MarketDeal)
    ensures forall k :: st.market.prices[k] <= Buy(st, MarketDeal).market.prices[k]
  {
    var b := st.player.upgrades.marketSellBonus;
    forall k ensures st.market.prices[k] <= Buy(st, MarketDeal).market.prices[k] {
      PriceMonotone(k, st.market.multipliers[k], b, b + 0.05);
    }
  }

  /** Selling an artefact sells the oldest one at the market price of its rarity, and is a no-op with none held. */
  lemma SellArtefactEffect(st: State)
    requires Inv(st)
    ensures var held := st.player.artefacts;
      var r := SellArtefact(st);
      && (held == [] ==> r == st)
      && (held != [] ==>
            && r.player.artefacts == held[1..]
            && r.player.coins == st.player.coins + st.market.prices[ArtefactKey(held[0].rarity)] as real
            && r.player.(artefacts := held, coins := st.player.coins) == st.player
            && r.(player := st.player) == st)
  {
  }

  /** Selling a resource sells the whole stock at its market price, and is a no-op with none in stock. */
  lemma SellResourceEffect(st: State, res: Resource)
    requires Inv(st)
    ensures var qty := st.player.resources.Get(res);
      var r := SellResource(st, res);
      && (qty == 0 ==> r == st)
      && (qty != 0 ==>
            && r.player.coins == st.player.coins + (qty * st.market.prices[ResourceKey(res)]) as real
            && r.player.resources.Get(res) == 0
            && (forall k :: k != res ==> r.player.resources.Get(k) == st.player.resources.Get(k))
            && r.(player := st.player) == st)
  {
  }
}
