/**
 * The game state as one value, and every player action and frame tick as a
 * function from the state before to the state after.  An action whose guard
 * fails returns the state unchanged; otherwise it applies fully.
 *
 * Time is the explicit argument `now` (milliseconds); every draw the game
 * makes from its seeded generator is an explicit argument too.
 */
module GameState {
  import opened Rng
  import opened Hex
  import opened Gen
  import opened GenFacts
  import opened Market
  import opened Rules

  /** `state.player` */
  datatype Player = Player(
    coins: real,
    fuel: real,
    maxFuel: int,
    fuelRegenBase: real,
    resources: Stock,
    upgrades: Upgrades,
    modules: Modules,
    artefacts: seq<Artefact>)

  /** One entry of `state.journal`, written when the player leaves a galaxy. */
  datatype JournalEntry = JournalEntry(
    index: int,
    completedPct: int,
    colonised: bool,
    artefacts: RarityCounts,
    totalExtracted: int)

  /** The saved state together with the two module-level variables `selectedRegionId` and `market`. */
  datatype State = State(
    baseSeed: int,
    galaxyIndex: int,
    galaxy: Galaxy,
    currentPlanetId: nat,
    player: Player,
    journal: seq<JournalEntry>,
    collections: Collections,
    lastTick: int,
    selectedRegionId: RegionId,
    market: Quote)

  // ---------------------------------------------------------------------------
  // What every reachable state satisfies
  // ---------------------------------------------------------------------------

  /**
   * A region's bookkeeping: its progress is a percentage, it is harvested
   * exactly at 100, and only a flagged region starts unlocking or reveals an
   * artefact.
   */
  predicate RegionOk(rg: Region)
  {
    && 0.0 <= rg.harvestedPct <= 100.0
    && (rg.harvested <==> rg.harvestedPct == 100.0)
    && (rg.artefactRevealed.Some? ==> rg.hasArtefactUnknown)
    && (rg.artefactUnlockStart != 0 ==> rg.hasArtefactUnknown)
  }

  /** A planet with a region to fall back to, whose completedPct is what recomputePlanetCompletion makes it. */
  predicate PlanetOk(pl: Planet)
  {
    |pl.regions| >= 1 && pl.completedPct == PlanetCompletion(pl.regions)
  }

  /**
   * A galaxy the actions can work on: a planet to fall back to, every
   * planet's completion up to date, totalRegions counting the regions, and
   * every region's bookkeeping in order.
   */
  predicate GalaxyOk(g: Galaxy)
  {
    && |g.planets| >= 1
    && (forall p :: 0 <= p < |g.planets| ==> PlanetOk(g.planets[p]))
    && g.totalRegions == |Flat(g.planets)|
    && (forall p, j :: 0 <= p < |g.planets| && 0 <= j < |g.planets[p].regions| ==> RegionOk(g.planets[p].regions[j]))
  }

  predicate PlayerOk(p: Player)
  {
    && ModuleOk(p.modules.scanner) && ModuleOk(p.modules.shield) && ModuleOk(p.modules.laser)
    && UpgradesOk(p.upgrades)
    && 0 <= p.maxFuel && p.fuel <= p.maxFuel as real && 0.0 <= p.fuelRegenBase
    && p.resources.metal >= 0 && p.resources.energy >= 0 && p.resources.organic >= 0
  }

  ghost predicate Inv(st: State)
  {
    && st.galaxyIndex >= 1
    && GalaxyOk(st.galaxy)
    && PlayerOk(st.player)
    && NoDuplicates(st.collections.dna) && NoDuplicates(st.collections.fossil) && NoDuplicates(st.collections.life)
    && PricedWith(st.market, st.player.upgrades.marketSellBonus)
    && (forall k :: st.market.prices[k] >= 0)
  }

  /**
   * A quote as computeMarket leaves it: a multiplier and a price for every
   * key, no negative multiplier, and every price its multiplier priced with
   * the sell bonus `bonus`.
   */
  ghost predicate PricedWith(q: Quote, bonus: real)
  {
    && Total(q.multipliers) && Total(q.prices)
    && (forall k :: q.multipliers[k] >= 0.0)
    && (forall k :: q.prices[k] == Price(k, q.multipliers[k], bonus))
  }

  /** Neither coins nor fuel below zero. */
  predicate Solvent(st: State)
  {
    st.player.coins >= 0.0 && st.player.fuel >= 0.0
  }

  // ---------------------------------------------------------------------------
  // Building blocks
  // ---------------------------------------------------------------------------

  /** The planet getPlanet() finds. */
  function CurrentPlanet(st: State): (i: nat)
    requires Inv(st)
    ensures i < |st.galaxy.planets|
  {
    PlanetIndex(st.galaxy.planets, st.currentPlanetId)
  }

  function WithPlanet(g: Galaxy, i: nat, pl: Planet): Galaxy
    requires i < |g.planets|
  {
    g.(planets := g.planets[i := pl])
  }

  /** applyDecay(name, base) on the player's module. */
  function ApplyDecay(p: Player, n: ModuleName, base: real): Player
  {
    p.(modules := p.modules.With(n, Decay(p.modules.Get(n), base)))
  }

  /** `Math.ceil` */
  function Ceil(x: real): (c: int)
    ensures x <= c as real < x + 1.0
  {
    -((-x).Floor)
  }

  /** The fuel a jump of `distance` hexes costs: ceil((1 + 2 * distance) * fuelCostMultiplier). */
  function TravelCost(distance: nat, multiplier: real): (cost: int)
    ensures multiplier >= 0.6 ==> cost >= 1
  {
    Ceil((1 + distance * 2) as real * multiplier)
  }

  /** The market the game holds after computeMarket with a long enough market stream. */
  function MarketFor(draws: seq<Unit>, sellBonus: real): (q: Quote)
    requires |draws| >= 8
    ensures PricedWith(q, sellBonus)
    ensures sellBonus >= 0.0 ==> forall k :: q.prices[k] >= 0
  {
    MarketPricesNonNegative(draws, sellBonus);
    MarketPriced(draws, sellBonus);
    ComputeMarket(draws, sellBonus).value.value
  }

  /** computeMarket prices every key from its multiplier, and no multiplier is negative. */
  lemma MarketPriced(draws: seq<Unit>, sellBonus: real)
    requires |draws| >= 8
    ensures PricedWith(ComputeMarket(draws, sellBonus).value.value, sellBonus)
  {
    var q := ComputeMarket(draws, sellBonus).value.value;
    forall k ensures q.multipliers[k] >= 0.0 {
      MultiplierRange(draws, sellBonus, k);
    }
  }

  /**
   * `openMarket()` after a purchase: computeMarket again at the same galaxy
   * seed and visit count, so the same multipliers and boost, with every price
   * rounded again for the sell bonus `bonus` (RepricedIsComputeMarket).
   */
  function Repriced(q: Quote, bonus: real): Quote
    requires Total(q.multipliers)
  {
    q.(prices := PricesOf(q.multipliers, bonus))
  }

  /** Recomputing the market from its own stream with another bonus is repricing the quote it gave. */
  lemma RepricedIsComputeMarket(s: seq<Unit>, b1: real, b2: real)
    requires ComputeMarket(s, b1).Some?
    ensures ComputeMarket(s, b2).Some?
    ensures Repriced(ComputeMarket(s, b1).value.value, b2) == ComputeMarket(s, b2).value.value
  {
    BonusAffectsPricesOnly(s, b1, b2);
    var q1, q2 := ComputeMarket(s, b1).value.value, ComputeMarket(s, b2).value.value;
    var r := Repriced(q1, b2);
    assert forall k :: r.prices[k] == q2.prices[k];
    assert r.prices == q2.prices;
  }

  /** Repricing with the bonus a quote was priced with changes nothing. */
  lemma RepriceSameBonus(q: Quote, bonus: real)
    requires PricedWith(q, bonus)
    ensures Repriced(q, bonus) == q
  {
    assert Repriced(q, bonus).prices == q.prices;
  }

  /** A repriced quote is priced with the new bonus, and with a non-negative bonus no price is negative. */
  lemma RepricedOk(q: Quote, was: real, bonus: real)
    requires PricedWith(q, was) && bonus >= 0.0
    ensures PricedWith(Repriced(q, bonus), bonus)
    ensures forall k :: Repriced(q, bonus).prices[k] >= 0
  {
    forall k ensures Repriced(q, bonus).prices[k] >= 0 {
      PriceMonotone(k, q.multipliers[k], 0.0, bonus);
    }
  }

  lemma MarketPricesNonNegative(draws: seq<Unit>, sellBonus: real)
    requires |draws| >= 8
    ensures sellBonus >= 0.0 ==> forall k :: ComputeMarket(draws, sellBonus).value.value.prices[k] >= 0
  {
    if sellBonus >= 0.0 {
      forall k ensures ComputeMarket(draws, sellBonus).value.value.prices[k] >= 0 {
        PricesNonNegative(draws, sellBonus, k);
      }
    }
  }

  // ---------------------------------------------------------------------------
  // travelSelected
  // ---------------------------------------------------------------------------

  /** Where travel departs from and goes to, on the current planet, and what it costs. */
  datatype Trip = Trip(planet: nat, from: nat, to: nat, distance: nat, cost: int)

  function TripOf(st: State): (t: Trip)
    requires Inv(st)
    ensures t.planet < |st.galaxy.planets|
    ensures t.from < |st.galaxy.planets[t.planet].regions| && t.to < |st.galaxy.planets[t.planet].regions|
  {
    var pi := CurrentPlanet(st);
    var pl := st.galaxy.planets[pi];
    var fi := RegionIndex(pl.regions, pl.currentRegionId);
    var ti := RegionIndex(pl.regions, st.selectedRegionId);
    var distance := Distance(pl.regions[fi].coord, pl.regions[ti].coord);
    Trip(pi, fi, ti, distance, TravelCost(distance, st.player.upgrades.fuelCostMultiplier))
  }

  /** The two refusals of travelSelected: not enough fuel, or a shield hazard above the shield's level. */
  predicate TravelRefused(st: State, t: Trip)
    requires Inv(st) && t == TripOf(st)
  {
    var to := st.galaxy.planets[t.planet].regions[t.to];
    st.player.fuel < t.cost as real || (to.hazard.Shield? && st.player.modules.shield.level < to.hazard.required)
  }

  /** A time hazard whose cooldown has run out is re-armed on arrival. */
  predicate Rearms(rg: Region, now: int)
  {
    rg.hazard.Time? && rg.hazard.cooldownEnd < now
  }

  /** The destination on arrival: discovered, and a lapsed time hazard re-armed for `seconds` from now. */
  function Arrive(rg: Region, now: int): Region
  {
    rg.(discovered := true,
        hazard := if Rearms(rg, now) then rg.hazard.(cooldownEnd := now + rg.hazard.seconds * 1000) else rg.hazard)
  }

  /** The planet once the player has moved to its region `to` at time `now`. */
  function Moved(pl: Planet, to: nat, now: int): Planet
    requires to < |pl.regions|
  {
    pl.(currentRegionId := pl.regions[to].id, regions := pl.regions[to := Arrive(pl.regions[to], now)])
  }

  /** The player after paying for trip `t`: the fuel, and the wear on shield and scanner (more on the shield when a hazard re-arms). */
  function Travelled(p: Player, t: Trip, rearmed: bool): Player
  {
    var paid := p.(fuel := p.fuel - t.cost as real);
    var worn := ApplyDecay(ApplyDecay(paid, ShieldModule, 0.9 + t.distance as real * 0.25), ScannerModule, 0.35);
    if rearmed then ApplyDecay(worn, ShieldModule, 1.4) else worn
  }

  /** A trip that goes ahead: the player pays and wears, and arrives at the destination. */
  function TravelOn(st: State, t: Trip, now: int): State
    requires t.planet < |st.galaxy.planets| && t.to < |st.galaxy.planets[t.planet].regions|
  {
    var pl := st.galaxy.planets[t.planet];
    st.(player := Travelled(st.player, t, Rearms(pl.regions[t.to], now)),
        galaxy := WithPlanet(st.galaxy, t.planet, Moved(pl, t.to, now)))
  }

  function Travel(st: State, now: int): State
    requires Inv(st)
  {
    var t := TripOf(st);
    if TravelRefused(st, t) then st else TravelOn(st, t, now)
  }

  // ---------------------------------------------------------------------------
  // harvest
  // ---------------------------------------------------------------------------

  /** The three guards of harvest: not yet harvested, no active time hazard, past nextHarvestAt (when set). */
  predicate CanHarvest(rg: Region, now: int)
  {
    && !rg.harvested
    && !(rg.hazard.Time? && now < rg.hazard.cooldownEnd)
    && !(rg.nextHarvestAt != 0 && now < rg.nextHarvestAt)
  }

  /** The region harvest works on: the current region of the current planet. */
  function HarvestSite(st: State): (site: (nat, nat))
    requires Inv(st)
    ensures site.0 < |st.galaxy.planets| && site.1 < |st.galaxy.planets[site.0].regions|
  {
    var pi := CurrentPlanet(st);
    var pl := st.galaxy.planets[pi];
    (pi, RegionIndex(pl.regions, pl.currentRegionId))
  }

  /** The region after a harvest yielding from `tier` with the given laser level. */
  function Harvested(rg: Region, now: int, tier: Tier, laserLevel: int): Region
  {
    var pct := HarvestedPct(rg.harvestedPct, laserLevel);
    rg.(harvestedPct := pct, nextHarvestAt := now + tier.waitSeconds * 1000, harvested := pct >= 100.0)
  }

  /** The player after a harvest of `key`: the yield, a 15% coin bonus (rounded down), and the wear. */
  function Reaped(p: Player, key: Resource, galaxyIndex: int): Player
  {
    var gain := Gain(key, galaxyIndex, p.modules.laser.level);
    var paid := p.(resources := p.resources.With(key, p.resources.Get(key) + gain),
                   coins := p.coins + (gain as real * 0.15).Floor as real);
    ApplyDecay(ApplyDecay(paid, LaserModule, 1.4), ScannerModule, 0.7)
  }

  /** A harvest that goes ahead on region ri of planet pi, the resource picked by the draw `u`. */
  function HarvestOn(st: State, pi: nat, ri: nat, now: int, u: Unit): State
    requires pi < |st.galaxy.planets| && ri < |st.galaxy.planets[pi].regions|
  {
    var pl := st.galaxy.planets[pi];
    var rg := pl.regions[ri];
    var key := HarvestResource(rg.resources, u);
    var tier := TierFor(Tiers(key), st.galaxy.index);
    var after := Harvested(rg, now, tier, st.player.modules.laser.level);
    var p := Reaped(st.player, key, st.galaxy.index);
    var regions := pl.regions[ri := after];
    st.(player := if after.harvested then p.(fuel := RMin(p.maxFuel as real, p.fuel + 8.0)) else p,
        galaxy := WithPlanet(st.galaxy, pi, pl.(regions := regions, completedPct := PlanetCompletion(regions))))
  }

  function Harvest(st: State, now: int, u: Unit): State
    requires Inv(st)
  {
    var (pi, ri) := HarvestSite(st);
    if !CanHarvest(st.galaxy.planets[pi].regions[ri], now) then st
    else HarvestOn(st, pi, ri, now, u)
  }

  // ---------------------------------------------------------------------------
  // The artefact lifecycle: unlockArtefact, the reveal in the tick, finishArtefact
  // ---------------------------------------------------------------------------

  /** The selected region of the current planet. */
  function SelectedSite(st: State): (site: (nat, nat))
    requires Inv(st)
    ensures site.0 < |st.galaxy.planets| && site.1 < |st.galaxy.planets[site.0].regions|
  {
    var pi := CurrentPlanet(st);
    (pi, RegionIndex(st.galaxy.planets[pi].regions, st.selectedRegionId))
  }

  /** A region whose unknown artefact has not been revealed yet. */
  predicate Unrevealed(rg: Region)
  {
    rg.hasArtefactUnknown && rg.artefactRevealed.None?
  }

  function UnlockArtefact(st: State, now: int): State
    requires Inv(st)
  {
    var (pi, ri) := SelectedSite(st);
    var pl := st.galaxy.planets[pi];
    var rg := pl.regions[ri];
    if !Unrevealed(rg) || rg.artefactUnlockStart != 0 then st
    else st.(galaxy := WithPlanet(st.galaxy, pi, pl.(regions := pl.regions[ri := rg.(artefactUnlockStart := now)])))
  }

  /** finishArtefact on region (pi, ri): reveal, hold and collect the artefact the two draws give. */
  function FinishArtefact(st: State, pi: nat, ri: nat, rarityDraw: Unit, itemDraw: Unit): State
    requires pi < |st.galaxy.planets| && ri < |st.galaxy.planets[pi].regions|
  {
    var a := RollArtefact(rarityDraw, itemDraw);
    var pl := st.galaxy.planets[pi];
    st.(galaxy := WithPlanet(st.galaxy, pi, pl.(regions := pl.regions[ri := pl.regions[ri].(artefactRevealed := Some(a))])),
        player := st.player.(artefacts := st.player.artefacts + [a]),
        collections := st.collections.With(a.category, Collect(st.collections.Get(a.category), a.item)))
  }

  /** The unlock of a region has run its course: started, unrevealed, and `artefactUnlockSeconds` elapsed. */
  predicate UnlockDue(rg: Region, now: int)
  {
    rg.artefactUnlockStart != 0 && rg.artefactRevealed.None?
    && now - rg.artefactUnlockStart >= rg.artefactUnlockSeconds * 1000
  }

  /** How many journal entries record a colonised galaxy. */
  function ColonisedCount(journal: seq<JournalEntry>): (n: nat)
    ensures n <= |journal|
  {
    if journal == [] then 0
    else ColonisedCount(journal[..|journal| - 1]) + if journal[|journal| - 1].colonised then 1 else 0
  }

  /** The passive income and fuel regeneration of one frame, dt seconds long. */
  function Regenerate(p: Player, dt: real, colonised: nat): Player
  {
    p.(coins := p.coins + dt * colonised as real * 0.5,
       fuel := RMin(p.maxFuel as real, p.fuel + (p.fuelRegenBase + colonised as real * 0.02) * dt))
  }

  /**
   * The state-changing part of one frame of `loop`: income and fuel, the
   * reveal of a finished unlock, and updateHUD's rewrite of the selection to
   * the region it resolves to.
   */
  function Tick(st: State, now: int, rarityDraw: Unit, itemDraw: Unit): State
    requires Inv(st)
  {
    var dt := (now - st.lastTick) as real / 1000.0;
    var ticked := st.(lastTick := now, player := Regenerate(st.player, dt, ColonisedCount(st.journal)));
    var (pi, ri) := SelectedSite(st);
    var revealed := if UnlockDue(st.galaxy.planets[pi].regions[ri], now) then FinishArtefact(ticked, pi, ri, rarityDraw, itemDraw)
                    else ticked;
    revealed.(selectedRegionId := st.galaxy.planets[pi].regions[ri].id)
  }

  // ---------------------------------------------------------------------------
  // Navigation and the galaxy jump
  // ---------------------------------------------------------------------------

  function SelectPlanet(st: State, id: nat, draws: seq<Unit>): State
    requires |draws| >= 8
  {
    st.(currentPlanetId := id,
        galaxy := st.galaxy.(planetVisitsCount := st.galaxy.planetVisitsCount + 1),
        market := MarketFor(draws, st.player.upgrades.marketSellBonus))
  }

  /** A click on the planet view selecting region `id`. */
  function SelectRegion(st: State, id: RegionId): State
  {
    st.(selectedRegionId := id)
  }

  /**
   * openMarket: computeMarket again for the galaxy on display. Its seed and
   * visit count are the ones that priced the market shown, so the same
   * multipliers and boost come back, priced with the current sell bonus
   * (RepricedIsComputeMarket).
   */
  function OpenMarket(st: State): State
    requires Total(st.market.multipliers)
  {
    st.(market := Repriced(st.market, st.player.upgrades.marketSellBonus))
  }

  /** The journal entry jumpGalaxy writes for the galaxy being left. */
  function Entry(st: State): JournalEntry
    requires Inv(st)
  {
    var completedPct := GalaxyCompletion(st.galaxy);
    JournalEntry(st.galaxy.index, completedPct, Colonised(completedPct, st.galaxy.planets),
                 CountRarities(st.player.artefacts), st.player.resources.Total())
  }

  /** A generated galaxy is one the actions can work on. */
  lemma GeneratedGalaxyOk(seed: int, s: seq<Unit>, index: int, now: int)
    requires index >= 1 && Generate(seed, s, index, now).Some?
    ensures GalaxyOk(Generate(seed, s, index, now).value)
    ensures Generate(seed, s, index, now).value.index == index
  {
    var g := Generate(seed, s, index, now).value;
    GeneratedGalaxy(seed, s, index, now);
    DifficultyRanges(index);
    FreshPlanetsOk(g.planets, index);
  }

  /** A generated galaxy has a first planet with a first region to land on. */
  lemma GeneratedLanding(seed: int, s: seq<Unit>, index: int, now: int)
    requires index >= 1 && Generate(seed, s, index, now).Some?
    ensures |Generate(seed, s, index, now).value.planets| >= 1
    ensures |Generate(seed, s, index, now).value.planets[0].regions| >= 1
  {
    GeneratedGalaxyOk(seed, s, index, now);
  }

  /** Planets that are fresh apart from their artefact flags satisfy PlanetOk and RegionOk throughout. */
  lemma FreshPlanetsOk(ps: seq<Planet>, index: int)
    requires index >= 1 && FreshPlanets(Unflagged(ps), index)
    ensures forall p :: 0 <= p < |ps| ==> PlanetOk(ps[p])
    ensures forall p, j :: 0 <= p < |ps| && 0 <= j < |ps[p].regions| ==> RegionOk(ps[p].regions[j])
  {
    forall p | 0 <= p < |ps| ensures PlanetOk(ps[p]) && forall j :: 0 <= j < |ps[p].regions| ==> RegionOk(ps[p].regions[j]) {
      FreshPlanetOk(ps, p, index);
    }
  }

  lemma FreshPlanetOk(ps: seq<Planet>, p: int, index: int)
    requires index >= 1 && 0 <= p < |ps| && FreshPlanet(Unflagged(ps)[p], p + 1, index)
    ensures PlanetOk(ps[p]) && forall j :: 0 <= j < |ps[p].regions| ==> RegionOk(ps[p].regions[j])
  {
    UnflaggedAt(ps, p);
    var clean := Unflagged(ps)[p];
    var rs := ps[p].regions;
    UnflaggedRegionsOk(rs, p + 1, Spiral(clean.regionCount));
    ZeroCompletion(rs);
  }

  /** Regions all at 0 percent make a planet 0 percent complete. */
  lemma ZeroCompletion(rs: seq<Region>)
    requires |rs| > 0 && forall j :: 0 <= j < |rs| ==> rs[j].harvestedPct == 0.0
    ensures PlanetCompletion(rs) == 0
  {
    SumPctZero(rs);
    assert SumPct(rs) / |rs| as real == 0.0;
  }

  lemma UnflaggedRegionsOk(rs: seq<Region>, p: nat, coords: seq<Coord>)
    requires |rs| <= |coords| && FreshRegions(UnflagAll(rs), p, coords)
    ensures forall j :: 0 <= j < |rs| ==> rs[j].harvestedPct == 0.0 && RegionOk(rs[j])
  {
    forall j | 0 <= j < |rs| ensures rs[j].harvestedPct == 0.0 && RegionOk(rs[j]) {
      assert UnflagAll(rs)[j] == Unflag(rs[j]);
      assert FreshRegion(UnflagAll(rs)[j], RegionId(p, j + 1), coords[j], j == 0);
    }
  }

  /** Regions at 0 percent sum to 0. */
  lemma {:induction false} SumPctZero(rs: seq<Region>)
    requires forall j :: 0 <= j < |rs| ==> rs[j].harvestedPct == 0.0
    ensures SumPct(rs) == 0.0
    decreases |rs|
  {
    if rs != [] {
      SumPctZero(rs[..|rs| - 1]);
    }
  }

  /** The galaxy generateGalaxy builds, known to be one the actions can work on. */
  function NewGalaxy(seed: int, s: seq<Unit>, index: int, now: int): (g: Galaxy)
    requires index >= 1 && Generate(seed, s, index, now).Some?
    ensures g == Generate(seed, s, index, now).value
    ensures GalaxyOk(g) && g.index == index
  {
    GeneratedGalaxyOk(seed, s, index, now);
    Generate(seed, s, index, now).value
  }

  /**
   * jumpGalaxy: the galaxy being left is written to the journal, and the
   * player starts on the first region of the first planet of `g`, the galaxy
   * generateGalaxy builds for galaxyIndex + 1 (NewGalaxy), with the market
   * priced from `draws`.
   */
  function JumpGalaxy(st: State, g: Galaxy, draws: seq<Unit>): State
    requires Inv(st) && GalaxyOk(g) && |draws| >= 8
  {
    st.(journal := st.journal + [Entry(st)],
        galaxyIndex := st.galaxyIndex + 1,
        galaxy := g,
        currentPlanetId := g.planets[0].id,
        selectedRegionId := g.planets[0].regions[0].id,
        market := MarketFor(draws, st.player.upgrades.marketSellBonus))
  }

  // ---------------------------------------------------------------------------
  // Upgrades, purchases and sales
  // ---------------------------------------------------------------------------

  /** A module upgrade bought with coins; refused when the coins do not cover it. */
  function UpgradeModule(st: State, n: ModuleName, kind: ModuleUpgrade): State
  {
    var m := st.player.modules.Get(n);
    var cost := UpgradeCost(m, kind);
    if st.player.coins < cost as real then st
    else st.(player := st.player.(coins := st.player.coins - cost as real, modules := st.player.modules.With(n, Upgraded(m, kind))))
  }

  datatype Purchase = Recovery | Tank | Efficiency | MarketDeal | ScannerInfo

  function PurchaseCost(p: Player, kind: Purchase): int
  {
    match kind
    case Recovery => EmergencyRecoveryCost(p.maxFuel, p.upgrades.emergencyDiscount)
    case Tank => 150
    case Efficiency => 140
    case MarketDeal => 170
    case ScannerInfo => 120
  }

  /** What a purchase buys, once paid for. */
  function Purchased(p: Player, kind: Purchase): Player
  {
    var u := p.upgrades;
    match kind
    case Recovery => p.(fuel := p.maxFuel as real)
    case Tank => p.(maxFuel := p.maxFuel + 12, fuel := (p.maxFuel + 12) as real)
    case Efficiency => p.(upgrades := u.(fuelCostMultiplier := RMax(0.6, u.fuelCostMultiplier - 0.08)))
    case MarketDeal =>
      p.(upgrades := u.(marketSellBonus := u.marketSellBonus + 0.05,
                        emergencyDiscount := RMax(0.75, u.emergencyDiscount - 0.05)))
    case ScannerInfo => p.(upgrades := u.(scannerInfoLevel := u.scannerInfoLevel + 1))
  }

  /** The two refusals of a purchase: not enough coins, or the scanner upgrade already at level 2. */
  predicate BuyRefused(p: Player, kind: Purchase)
  {
    p.coins < PurchaseCost(p, kind) as real || (kind == ScannerInfo && p.upgrades.scannerInfoLevel >= 2)
  }

  /**
   * A market buy button: the purchase, unless refused, and then, refused or
   * not, `openMarket()` reprices the market with the player's sell bonus.
   */
  function Buy(st: State, kind: Purchase): State
    requires Total(st.market.multipliers)
  {
    var cost := PurchaseCost(st.player, kind);
    var p := if BuyRefused(st.player, kind) then st.player
             else Purchased(st.player.(coins := st.player.coins - cost as real), kind);
    OpenMarket(st.(player := p))
  }

  /** Selling the oldest artefact at the market price of its rarity, then `openMarket()`. */
  function SellArtefact(st: State): State
    requires Inv(st)
  {
    var held := st.player.artefacts;
    if held == [] then st
    else OpenMarket(st.(player := st.player.(artefacts := held[1..],
                                             coins := st.player.coins + st.market.prices[ArtefactKey(held[0].rarity)] as real)))
  }

  /** Selling the whole stock of a resource at its market price, then `openMarket()`. */
  function SellResource(st: State, r: Resource): State
    requires Inv(st)
  {
    var qty := st.player.resources.Get(r);
    if qty == 0 then st
    else OpenMarket(st.(player := st.player.(coins := st.player.coins + (qty * st.market.prices[ResourceKey(r)]) as real,
                                             resources := st.player.resources.With(r, 0))))
  }

  // ---------------------------------------------------------------------------
  // The initial state
  // ---------------------------------------------------------------------------

  const FreshModule := Module(1, 100.0, 100, 1.0)

  /** A new save (createDefaultSave) once init has selected the current region and priced the market. */
  function Initial(baseSeed: int, seed: int, s: seq<Unit>, now: int, draws: seq<Unit>): (st: State)
    requires Generate(seed, s, 1, now).Some? && |draws| >= 8
    ensures Inv(st) && Solvent(st)
    ensures st.galaxyIndex == 1 && st.galaxy.index == 1 && st.journal == []
  {
    Start(baseSeed, NewGalaxy(seed, s, 1, now), now, draws)
  }

  /** The new save in galaxy `g`, on planet 1 and its current region, with the market priced from `draws`. */
  function Start(baseSeed: int, g: Galaxy, now: int, draws: seq<Unit>): (st: State)
    requires GalaxyOk(g) && g.index == 1 && |draws| >= 8
    ensures Inv(st) && Solvent(st)
    ensures st.galaxyIndex == 1 && st.galaxy == g && st.journal == []
  {
    var planet := g.planets[PlanetIndex(g.planets, 1)];
    State(baseSeed, 1, g, 1,
          Player(120.0, 60.0, 60, 0.12, Stock(0, 0, 0), Upgrades(1.0, 1.0, 1.0, 0),
                 Modules(FreshModule, FreshModule, FreshModule), []),
          [], Collections([], [], []), now, planet.currentRegionId, MarketFor(draws, 1.0))
  }

  /** A state built field by field as init builds it is the starting state. */
  lemma StartFields(baseSeed: int, g: Galaxy, now: int, draws: seq<Unit>, st: State)
    requires GalaxyOk(g) && g.index == 1 && |draws| >= 8
    requires st.baseSeed == baseSeed && st.galaxyIndex == 1 && st.galaxy == g && st.currentPlanetId == 1
    requires st.player == Player(120.0, 60.0, 60, 0.12, Stock(0, 0, 0), Upgrades(1.0, 1.0, 1.0, 0),
                                 Modules(FreshModule, FreshModule, FreshModule), [])
    requires st.journal == [] && st.collections == Collections([], [], []) && st.lastTick == now
    requires st.selectedRegionId == g.planets[PlanetIndex(g.planets, 1)].currentRegionId
    requires st.market == MarketFor(draws, 1.0)
    ensures st == Start(baseSeed, g, now, draws)
  {
  }
}
