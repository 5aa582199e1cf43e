/**
 * The running game: the saved state, the selected region and the market as
 * the fields of one object, and every action as a method that updates them
 * in place, statement by statement as the game does.  Each method is proved
 * to compute the matching transition of GameState and to keep the invariant.
 */
module App {
  import opened Rng
  import opened Hex
  import opened Gen
  import opened Market
  import opened Rules
  import opened GameState
  import opened StateFacts

  class Game {
    var baseSeed: int
    var galaxyIndex: int
    var galaxy: Galaxy
    var currentPlanetId: nat
    var player: Player
    var journal: seq<JournalEntry>
    var collections: Collections
    var lastTick: int
    var selectedRegionId: RegionId
    var market: Quote

    /** The fields as one state value. */
    function Snapshot(): State
      reads this
    {
      State(baseSeed, galaxyIndex, galaxy, currentPlanetId, player, journal, collections, lastTick, selectedRegionId, market)
    }

    ghost predicate Valid()
      reads this
    {
      Inv(Snapshot())
    }

    /**
     * A new save in `g`, the first galaxy as generateGalaxy made it, once
     * init has selected the current planet's region and priced the market.
     */
    constructor (baseSeed: int, g: Galaxy, now: int, draws: seq<Unit>)
      requires GalaxyOk(g) && g.index == 1 && |draws| >= 8
      ensures Snapshot() == Start(baseSeed, g, now, draws)
      ensures Valid()
    {
      this.baseSeed := baseSeed;
      galaxyIndex := 1;
      galaxy := g;
      currentPlanetId := 1;
      player := Player(120.0, 60.0, 60, 0.12, Stock(0, 0, 0), Upgrades(1.0, 1.0, 1.0, 0), Modules(FreshModule, FreshModule, FreshModule), []);
      journal := [];
      collections := Collections([], [], []);
      lastTick := now;
      var planet := g.planets[PlanetIndex(g.planets, 1)];
      selectedRegionId := planet.currentRegionId;
      market := MarketFor(draws, 1.0);
      new;
      StartFields(baseSeed, galaxy, now, draws, Snapshot());
    }

    /** applyDecay: wear one module, demoting it by a level and repairing it when it wears out. */
    method ApplyDecay(n: ModuleName, base: real)
      modifies this`player
      ensures player == GameState.ApplyDecay(old(player), n, base)
    {
      var m := player.modules.Get(n);
      m := m.(durability := m.durability - base * m.decayRate);
      if m.durability <= 0.0 {
        m := m.(level := Max(1, m.level - 1), durability := m.durabilityMax as real);
      }
      player := player.(modules := player.modules.With(n, m));
    }

    /** travelSelected: from the current region to the selected one, on the current planet. */
    method TravelSelected(now: int)
      requires Valid()
      modifies this`player, this`galaxy
      ensures Snapshot() == Travel(old(Snapshot()), now)
      ensures Valid()
    {
      ghost var before := Snapshot();
      TravelKeepsInv(before, now);
      var pi := PlanetIndex(galaxy.planets, currentPlanetId);
      var planet := galaxy.planets[pi];
      var fi := RegionIndex(planet.regions, planet.currentRegionId);
      var ti := RegionIndex(planet.regions, selectedRegionId);
      var to := planet.regions[ti];
      var distance := Distance(planet.regions[fi].coord, to.coord);
      var cost := TravelCost(distance, player.upgrades.fuelCostMultiplier);
      var t := Trip(pi, fi, ti, distance, cost);
      assert t == TripOf(before);
      if player.fuel < cost as real {
        return;
      }
      if to.hazard.Shield? && player.modules.shield.level < to.hazard.required {
        return;
      }
      Go(t, now);
    }

    /** The body of travelSelected once both guards pass: pay, wear, move and arrive. */
    method Go(t: Trip, now: int)
      requires t.planet < |galaxy.planets| && t.to < |galaxy.planets[t.planet].regions|
      modifies this`player, this`galaxy
      ensures Snapshot() == TravelOn(old(Snapshot()), t, now)
    {
      ghost var before := Snapshot();
      var planet := galaxy.planets[t.planet];
      var to := planet.regions[t.to];
      player := player.(fuel := player.fuel - t.cost as real);
      ApplyDecay(ShieldModule, 0.9 + t.distance as real * 0.25);
      ApplyDecay(ScannerModule, 0.35);
      planet := planet.(currentRegionId := to.id);
      to := to.(discovered := true);
      if to.hazard.Time? && to.hazard.cooldownEnd < now {
        to := to.(hazard := to.hazard.(cooldownEnd := now + to.hazard.seconds * 1000));
        ApplyDecay(ShieldModule, 1.4);
      }
      assert player == Travelled(before.player, t, Rearms(before.galaxy.planets[t.planet].regions[t.to], now));
      planet := planet.(regions := planet.regions[t.to := to]);
      galaxy := galaxy.(planets := galaxy.planets[t.planet := planet]);
    }

    /** harvest on the current region of the current planet; `u` is the draw that picks the resource. */
    method Harvest(now: int, u: Unit)
      requires Valid()
      modifies this
      ensures Snapshot() == GameState.Harvest(old(Snapshot()), now, u)
      ensures Valid()
    {
      ghost var before := Snapshot();
      HarvestKeepsInv(before, now, u);
      var pi := PlanetIndex(galaxy.planets, currentPlanetId);
      var ri := RegionIndex(galaxy.planets[pi].regions, galaxy.planets[pi].currentRegionId);
      var region := galaxy.planets[pi].regions[ri];
      assert (pi, ri) == HarvestSite(before);
      if region.harvested {
        return;
      }
      if region.hazard.Time? && now < region.hazard.cooldownEnd {
        return;
      }
      if region.nextHarvestAt != 0 && now < region.nextHarvestAt {
        return;
      }
      Reap(pi, ri, now, u);
    }

    /** The body of harvest once its guards pass: yield, pay, wear, progress and the refuel on completion. */
    method Reap(pi: nat, ri: nat, now: int, u: Unit)
      requires pi < |galaxy.planets| && ri < |galaxy.planets[pi].regions|
      requires CanHarvest(galaxy.planets[pi].regions[ri], now)
      modifies this`player, this`galaxy
      ensures Snapshot() == HarvestOn(old(Snapshot()), pi, ri, now, u)
    {
      ghost var before := Snapshot();
      var planet := galaxy.planets[pi];
      var region := planet.regions[ri];
      var key := HarvestResource(region.resources, u);
      var tier := TierFor(Tiers(key), galaxy.index);
      var gain := tier.baseYield + player.modules.laser.level;
      ghost var paid := player;
      player := player.(resources := player.resources.With(key, player.resources.Get(key) + gain));
      player := player.(coins := player.coins + (gain as real * 0.15).Floor as real);
      region := region.(harvestedPct := RMin(100.0, region.harvestedPct + 8.0 + player.modules.laser.level as real * 0.8));
      region := region.(nextHarvestAt := now + tier.waitSeconds * 1000);
      ApplyDecay(LaserModule, 1.4);
      ApplyDecay(ScannerModule, 0.7);
      assert player == Reaped(paid, key, galaxy.index);
      if region.harvestedPct >= 100.0 {
        region := region.(harvested := true);
        player := player.(fuel := RMin(player.maxFuel as real, player.fuel + 8.0));
      }
      assert region == Harvested(before.galaxy.planets[pi].regions[ri], now, tier, paid.modules.laser.level);
      planet := planet.(regions := planet.regions[ri := region]);
      planet := planet.(completedPct := PlanetCompletion(planet.regions));
      galaxy := galaxy.(planets := galaxy.planets[pi := planet]);
    }

    /** unlockArtefact on the selected region: start the clock once, on a flagged region not yet revealed. */
    method UnlockArtefact(now: int)
      requires Valid()
      modifies this
      ensures Snapshot() == GameState.UnlockArtefact(old(Snapshot()), now)
      ensures Valid()
    {
      UnlockKeepsInv(Snapshot(), now);
      var pi := PlanetIndex(galaxy.planets, currentPlanetId);
      var planet := galaxy.planets[pi];
      var ri := RegionIndex(planet.regions, selectedRegionId);
      var region := planet.regions[ri];
      if !(region.hasArtefactUnknown && region.artefactRevealed.None?) {
        return;
      }
      if region.artefactUnlockStart == 0 {
        region := region.(artefactUnlockStart := now);
        planet := planet.(regions := planet.regions[ri := region]);
        galaxy := galaxy.(planets := galaxy.planets[pi := planet]);
      }
    }

    /** finishArtefact on region ri of planet pi: reveal, hold and collect the artefact the two draws give. */
    method FinishArtefact(pi: nat, ri: nat, rarityDraw: Unit, itemDraw: Unit)
      requires pi < |galaxy.planets| && ri < |galaxy.planets[pi].regions|
      modifies this
      ensures Snapshot() == GameState.FinishArtefact(old(Snapshot()), pi, ri, rarityDraw, itemDraw)
    {
      var rarity := RarityRoll(rarityDraw);
      var category := CategoryOf(rarity);
      var pool := Pool(category);
      var item := pool[PickIndex(itemDraw, |pool|)];
      var planet := galaxy.planets[pi];
      planet := planet.(regions := planet.regions[ri := planet.regions[ri].(artefactRevealed := Some(Artefact(category, rarity, item)))]);
      galaxy := galaxy.(planets := galaxy.planets[pi := planet]);
      player := player.(artefacts := player.artefacts + [Artefact(category, rarity, item)]);
      if item !in collections.Get(category) {
        collections := collections.With(category, collections.Get(category) + [item]);
      }
    }

    /** The count of colonised journal entries, as the frame's filter computes it. */
    method CountColonised() returns (n: nat)
      ensures n == ColonisedCount(journal)
    {
      n := 0;
      var i := 0;
      while i < |journal|
        invariant 0 <= i <= |journal|
        invariant n == ColonisedCount(journal[..i])
      {
        assert journal[..i + 1][..i] == journal[..i];
        n := n + if journal[i].colonised then 1 else 0;
        i := i + 1;
      }
      assert journal[..i] == journal;
    }

    /**
     * One frame of `loop` at time `now`: income, fuel regeneration, the
     * reveal of a finished unlock, and updateHUD's rewrite of the selected
     * region to the one it resolves to.
     */
    method Tick(now: int, rarityDraw: Unit, itemDraw: Unit)
      requires Valid()
      modifies this
      ensures Snapshot() == GameState.Tick(old(Snapshot()), now, rarityDraw, itemDraw)
      ensures Valid()
    {
      ghost var before := Snapshot();
      TickKeepsInv(before, now, rarityDraw, itemDraw);
      var pi := PlanetIndex(galaxy.planets, currentPlanetId);
      var ri := RegionIndex(galaxy.planets[pi].regions, selectedRegionId);
      assert (pi, ri) == SelectedSite(before);
      Regenerate(now);
      var region := galaxy.planets[pi].regions[ri];
      if region.artefactUnlockStart != 0 && region.artefactRevealed.None? {
        if now - region.artefactUnlockStart >= region.artefactUnlockSeconds * 1000 {
          FinishArtefact(pi, ri, rarityDraw, itemDraw);
        }
      }
      selectedRegionId := region.id;
    }

    /** The income and fuel regeneration at the head of a frame, and the new frame time. */
    method Regenerate(now: int)
      modifies this`player, this`lastTick
      ensures lastTick == now
      ensures player == GameState.Regenerate(old(player), (now - old(lastTick)) as real / 1000.0, ColonisedCount(journal))
    {
      var dt := (now - lastTick) as real / 1000.0;
      lastTick := now;
      var colonisedCount := CountColonised();
      ghost var regenerated := GameState.Regenerate(player, dt, colonisedCount);
      player := player.(coins := player.coins + dt * colonisedCount as real * 0.5);
      assert player.coins == regenerated.coins;
      player := player.(fuel := RMin(player.maxFuel as real, player.fuel + (player.fuelRegenBase + colonisedCount as real * 0.02) * dt));
      assert player == regenerated;
    }

    /** selectPlanet: make planet `id` current, count the visit, and reprice the market from `draws`. */
    method SelectPlanet(id: nat, draws: seq<Unit>)
      requires Valid() && |draws| >= 8
      modifies this
      ensures Snapshot() == GameState.SelectPlanet(old(Snapshot()), id, draws)
      ensures Valid()
    {
      SelectPlanetKeepsInv(Snapshot(), id, draws);
      currentPlanetId := id;
      galaxy := galaxy.(planetVisitsCount := galaxy.planetVisitsCount + 1);
      market := MarketFor(draws, player.upgrades.marketSellBonus);
    }

    /** A click on region `id` of the planet view. */
    method SelectRegion(id: RegionId)
      requires Valid()
      modifies this
      ensures Snapshot() == GameState.SelectRegion(old(Snapshot()), id)
      ensures Valid()
    {
      selectedRegionId := id;
    }

    /** computeGalaxyCompletion's double reduce, planet by planet. */
    method SumGalaxyPct() returns (total: real)
      ensures total == GalaxyPct(galaxy.planets)
    {
      total := 0.0;
      var i := |galaxy.planets|;
      while i > 0
        invariant 0 <= i <= |galaxy.planets|
        invariant total == GalaxyPct(galaxy.planets[i..])
      {
        i := i - 1;
        assert galaxy.planets[i..][1..] == galaxy.planets[i + 1..];
        total := SumPct(galaxy.planets[i].regions) + total;
      }
    }

    /**
     * jumpGalaxy: write the journal entry, move to the next index, generate
     * its galaxy from `seed` and the stream `s`, land on its first region and
     * reprice the market from `draws`.
     */
    method JumpGalaxy(seed: int, s: seq<Unit>, now: int, draws: seq<Unit>)
      requires Valid() && |draws| >= 8
      requires Generate(seed, s, galaxyIndex + 1, now).Some?
      modifies this
      ensures Valid()
      ensures Generate(seed, s, old(galaxyIndex) + 1, now) == Some(galaxy)
      ensures Snapshot() == GameState.JumpGalaxy(old(Snapshot()), galaxy, draws)
    {
      ghost var before := Snapshot();
      var next := galaxyIndex + 1;
      var entry := JournalEntryFor();
      Depart(entry, seed, s, next, now);
      Reprice(draws);
      assert Snapshot() == GameState.JumpGalaxy(before, galaxy, draws);
      JumpKeepsInv(before, galaxy, draws);
    }

    /** jumpGalaxy from the journal entry on: record it, then land in galaxy `next`. */
    method Depart(entry: JournalEntry, seed: int, s: seq<Unit>, next: int, now: int)
      requires next >= 1 && Generate(seed, s, next, now).Some?
      modifies this
      ensures galaxy == NewGalaxy(seed, s, next, now)
      ensures Snapshot() == old(Snapshot()).(journal := old(journal) + [entry], galaxyIndex := next, galaxy := galaxy,
                                             currentPlanetId := galaxy.planets[0].id,
                                             selectedRegionId := galaxy.planets[0].regions[0].id)
    {
      journal := journal + [entry];
      Land(seed, s, next, now);
    }

    /** The journal entry jumpGalaxy records for the galaxy being left. */
    method JournalEntryFor() returns (e: JournalEntry)
      requires Valid()
      ensures e == Entry(Snapshot())
    {
      var total := SumGalaxyPct();
      var completedPct := (total / galaxy.totalRegions as real).Floor;
      var artefacts := CountRarities(player.artefacts);
      var colonised := completedPct == 100 && AllRevealed(galaxy.planets);
      e := JournalEntry(galaxy.index, completedPct, colonised, artefacts, player.resources.Total());
    }

    /** The arrival half of jumpGalaxy: the new index, its galaxy, and its first planet and region. */
    method Land(seed: int, s: seq<Unit>, index: int, now: int)
      requires index >= 1 && Generate(seed, s, index, now).Some?
      modifies this`galaxyIndex, this`galaxy, this`currentPlanetId, this`selectedRegionId
      ensures galaxyIndex == index && galaxy == NewGalaxy(seed, s, index, now)
      ensures currentPlanetId == galaxy.planets[0].id && selectedRegionId == galaxy.planets[0].regions[0].id
    {
      galaxyIndex := index;
      var g := GenerateGalaxy(seed, s, index, now);
      GeneratedLanding(seed, s, index, now);
      galaxy := g.value;
      currentPlanetId := galaxy.planets[0].id;
      selectedRegionId := galaxy.planets[0].regions[0].id;
    }

    /** `market = computeMarket(...)`, with the player's sell bonus and the draws of `draws`. */
    method Reprice(draws: seq<Unit>)
      requires |draws| >= 8
      modifies this`market
      ensures market == MarketFor(draws, player.upgrades.marketSellBonus)
    {
      market := MarketFor(draws, player.upgrades.marketSellBonus);
    }

    /** A module upgrade button: pay the cost, or do nothing without the coins. */
    method UpgradeModule(n: ModuleName, kind: ModuleUpgrade)
      requires Valid()
      modifies this
      ensures Snapshot() == GameState.UpgradeModule(old(Snapshot()), n, kind)
      ensures Valid()
    {
      UpgradeKeepsInv(Snapshot(), n, kind);
      var m := player.modules.Get(n);
      var cost := match kind case LevelUp => 80 * m.level case DurabilityUp => 90 case DecayUp => 70;
      if player.coins < cost as real {
        return;
      }
      player := player.(coins := player.coins - cost as real);
      if kind == LevelUp {
        m := m.(level := m.level + 1);
      }
      if kind == DurabilityUp {
        m := m.(durabilityMax := m.durabilityMax + 20);
        m := m.(durability := m.durabilityMax as real);
      }
      if kind == DecayUp {
        m := m.(decayRate := RMax(0.35, m.decayRate - 0.08));
      }
      player := player.(modules := player.modules.With(n, m));
    }

    /**
     * openMarket: computeMarket again for the galaxy on display, which
     * reprices the quote shown with the current bonus; in a valid game that
     * is the quote already shown.
     */
    method OpenMarket()
      requires Total(market.multipliers)
      modifies this`market
      ensures Snapshot() == GameState.OpenMarket(old(Snapshot()))
      ensures old(Valid()) ==> Snapshot() == old(Snapshot())
    {
      if Valid() {
        OpenMarketStable(Snapshot());
      }
      market := Repriced(market, player.upgrades.marketSellBonus);
    }

    /** A market buy button, then `openMarket()` whether or not the purchase went through. */
    method Buy(kind: Purchase)
      requires Valid()
      modifies this
      ensures Snapshot() == GameState.Buy(old(Snapshot()), kind)
      ensures Valid()
    {
      BuyKeepsInv(Snapshot(), kind);
      if kind == Recovery {
        var c := EmergencyRecoveryCost(player.maxFuel, player.upgrades.emergencyDiscount);
        if player.coins >= c as real {
          player := player.(coins := player.coins - c as real);
          player := player.(fuel := player.maxFuel as real);
        }
      }
      if kind == Tank && player.coins >= 150.0 {
        player := player.(coins := player.coins - 150.0);
        player := player.(maxFuel := player.maxFuel + 12);
        player := player.(fuel := player.maxFuel as real);
      }
      if kind == Efficiency && player.coins >= 140.0 {
        player := player.(coins := player.coins - 140.0);
        player := player.(upgrades := player.upgrades.(fuelCostMultiplier := RMax(0.6, player.upgrades.fuelCostMultiplier - 0.08)));
      }
      if kind == MarketDeal && player.coins >= 170.0 {
        player := player.(coins := player.coins - 170.0);
        player := player.(upgrades := player.upgrades.(marketSellBonus := player.upgrades.marketSellBonus + 0.05));
        player := player.(upgrades := player.upgrades.(emergencyDiscount := RMax(0.75, player.upgrades.emergencyDiscount - 0.05)));
      }
      if kind == ScannerInfo && player.coins >= 120.0 && player.upgrades.scannerInfoLevel < 2 {
        player := player.(coins := player.coins - 120.0);
        player := player.(upgrades := player.upgrades.(scannerInfoLevel := player.upgrades.scannerInfoLevel + 1));
      }
      OpenMarket();
    }

    /** The artefact sell button: the oldest artefact goes, at the price of its rarity. */
    method SellArtefact()
      requires Valid()
      modifies this
      ensures Snapshot() == GameState.SellArtefact(old(Snapshot()))
      ensures Valid()
    {
      SellArtefactKeepsInv(Snapshot());
      if player.artefacts == [] {
        return;
      }
      var a := player.artefacts[0];
      player := player.(artefacts := player.artefacts[1..]);
      player := player.(coins := player.coins + market.prices[ArtefactKey(a.rarity)] as real);
      OpenMarket();
    }

    /** A resource sell button: the whole stock goes at the resource's price. */
    method SellResource(r: Resource)
      requires Valid()
      modifies this
      ensures Snapshot() == GameState.SellResource(old(Snapshot()), r)
      ensures Valid()
    {
      SellResourceKeepsInv(Snapshot(), r);
      var qty := player.resources.Get(r);
      if qty == 0 {
        return;
      }
      player := player.(coins := player.coins + (qty * market.prices[ResourceKey(r)]) as real);
      player := player.(resources := player.resources.With(r, 0));
      OpenMarket();
    }
  }
}
