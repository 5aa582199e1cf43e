/**
 * What the actions of the game guarantee: every action keeps the state
 * invariant and keeps coins and fuel from going negative, each has the
 * effect and the refusals the game promises, and the actions other than the
 * galaxy jump only ever advance a region's progress.
 */
module StateFacts {
  import opened Rng
  import opened Hex
  import opened Gen
  import opened Market
  import opened Rules
  import opened GameState

  // ---------------------------------------------------------------------------
  // Galaxies after replacing one planet
  // ---------------------------------------------------------------------------

  /** Replacing a planet by one with as many regions keeps the number of regions. */
  lemma {:induction false} FlatLengthWith(ps: seq<Planet>, i: nat, pl: Planet)
    requires i < |ps| && |pl.regions| == |ps[i].regions|
    ensures |Flat(ps[i := pl])| == |Flat(ps)|
    decreases |ps|
  {
    var qs := ps[i := pl];
    if i == 0 {
      assert qs[1..] == ps[1..];
    } else {
      assert qs[1..] == ps[1..][i - 1 := pl];
      FlatLengthWith(ps[1..], i - 1, pl);
    }
  }

  /** Regions that are each in order, flattened, are in order. */
  lemma {:induction false} FlatRegionsOk(ps: seq<Planet>)
    requires forall p, j :: 0 <= p < |ps| && 0 <= j < |ps[p].regions| ==> RegionOk(ps[p].regions[j])
    ensures forall k :: 0 <= k < |Flat(ps)| ==> RegionOk(Flat(ps)[k])
    decreases |ps|
  {
    if ps != [] {
      var tail := ps[1..];
      assert forall p, j :: 0 <= p < |tail| && 0 <= j < |tail[p].regions| ==> RegionOk(tail[p].regions[j]) by {
        forall p, j | 0 <= p < |tail| && 0 <= j < |tail[p].regions| ensures RegionOk(tail[p].regions[j]) {
          assert tail[p] == ps[p + 1];
        }
      }
      FlatRegionsOk(tail);
    }
  }

  /** In a galaxy in order, the flattened regions are percentages and there is at least one. */
  lemma GalaxyRegions(g: Galaxy)
    requires GalaxyOk(g)
    ensures g.totalRegions == |Flat(g.planets)| >= 1
    ensures PctInRange(Flat(g.planets))
  {
    FlatRegionsOk(g.planets);
    assert PlanetOk(g.planets[0]);
  }

  /** Replacing one planet by a planet in order, with as many regions, keeps the galaxy in order. */
  lemma WithPlanetOk(g: Galaxy, i: nat, pl: Planet)
    requires GalaxyOk(g) && i < |g.planets|
    requires |pl.regions| == |g.planets[i].regions| && PlanetOk(pl)
    requires forall j :: 0 <= j < |pl.regions| ==> RegionOk(pl.regions[j])
    ensures GalaxyOk(WithPlanet(g, i, pl))
  {
    FlatLengthWith(g.planets, i, pl);
  }

  /** Region lists with the same percentages, region by region, have the same sum. */
  lemma {:induction false} SumPctSame(a: seq<Region>, b: seq<Region>)
    requires |a| == |b| && forall j :: 0 <= j < |a| ==> a[j].harvestedPct == b[j].harvestedPct
    ensures SumPct(a) == SumPct(b)
    decreases |a|
  {
    if a != [] {
      SumPctSame(a[..|a| - 1], b[..|b| - 1]);
    }
  }

  /**
   * Changing one region of a planet in order, without touching its harvest
   * progress, keeps the galaxy in order when the new region is in order.
   */
  lemma ReplaceRegionOk(g: Galaxy, pi: nat, ri: nat, rg: Region)
    requires GalaxyOk(g) && pi < |g.planets| && ri < |g.planets[pi].regions|
    requires RegionOk(rg) && rg.harvestedPct == g.planets[pi].regions[ri].harvestedPct
    ensures var pl := g.planets[pi];
      GalaxyOk(WithPlanet(g, pi, pl.(regions := pl.regions[ri := rg])))
  {
    var pl := g.planets[pi];
    var rs := pl.regions[ri := rg];
    assert PlanetOk(pl);
    SumPctSame(pl.regions, rs);
    WithPlanetOk(g, pi, pl.(regions := rs));
  }

  // ---------------------------------------------------------------------------
  // Wear
  // ---------------------------------------------------------------------------

  /** Wear keeps the player in order and changes nothing but the worn module. */
  lemma ApplyDecayOk(p: Player, n: ModuleName, base: real)
    requires PlayerOk(p) && base >= 0.0
    ensures PlayerOk(ApplyDecay(p, n, base))
    ensures ApplyDecay(p, n, base).(modules := p.modules) == p
    ensures forall o :: o != n ==> ApplyDecay(p, n, base).modules.Get(o) == p.modules.Get(o)
  {
    DecayKeepsModuleOk(p.modules.Get(n), base);
  }

  // ---------------------------------------------------------------------------
  // Every action keeps the invariant
  // ---------------------------------------------------------------------------

  /** Paying for a trip keeps the player in order. */
  lemma TravelledOk(p: Player, t: Trip, rearmed: bool)
    requires PlayerOk(p) && t.cost >= 0
    ensures PlayerOk(Travelled(p, t, rearmed))
  {
    var paid := p.(fuel := p.fuel - t.cost as real);
    ApplyDecayOk(paid, ShieldModule, 0.9 + t.distance as real * 0.25);
    var shielded := ApplyDecay(paid, ShieldModule, 0.9 + t.distance as real * 0.25);
    ApplyDecayOk(shielded, ScannerModule, 0.35);
    ApplyDecayOk(ApplyDecay(shielded, ScannerModule, 0.35), ShieldModule, 1.4);
  }

  /** Moving within a planet keeps the galaxy in order. */
  lemma MovedOk(g: Galaxy, pi: nat, to: nat, now: int)
    requires GalaxyOk(g) && pi < |g.planets| && to < |g.planets[pi].regions|
    ensures GalaxyOk(WithPlanet(g, pi, Moved(g.planets[pi], to, now)))
  {
    var pl := g.planets[pi];
    var rs := pl.regions[to := Arrive(pl.regions[to], now)];
    assert PlanetOk(pl) && RegionOk(pl.regions[to]);
    SumPctSame(pl.regions, rs);
    WithPlanetOk(g, pi, Moved(pl, to, now));
  }

  lemma TravelKeepsInv(st: State, now: int)
    requires Inv(st)
    ensures Inv(Travel(st, now))
  {
    var t := TripOf(st);
    if !TravelRefused(st, t) {
      TravelledOk(st.player, t, Rearms(st.galaxy.planets[t.planet].regions[t.to], now));
      MovedOk(st.galaxy, t.planet, t.to, now);
    }
  }

  /** A harvest keeps a region in order and never lowers its progress. */
  lemma HarvestedOk(rg: Region, now: int, tier: Tier, laserLevel: int)
    requires RegionOk(rg) && laserLevel >= 0
    ensures RegionOk(Harvested(rg, now, tier, laserLevel))
    ensures rg.harvestedPct <= Harvested(rg, now, tier, laserLevel).harvestedPct
  {
  }

  /** The yield of a harvest is positive. */
  lemma GainPositive(r: Resource, galaxyIndex: int, laserLevel: int)
    requires laserLevel >= 0
    ensures Gain(r, galaxyIndex, laserLevel) >= 3
  {
    var t := TierFor(Tiers(r), galaxyIndex);
    assert t in Tiers(r);
  }

  /** Reaping keeps the player in order and pays a bonus that is never negative. */
  lemma ReapedOk(p: Player, key: Resource, galaxyIndex: int)
    requires PlayerOk(p)
    ensures PlayerOk(Reaped(p, key, galaxyIndex))
    ensures Reaped(p, key, galaxyIndex).coins >= p.coins && Reaped(p, key, galaxyIndex).fuel == p.fuel
  {
    var gain := Gain(key, galaxyIndex, p.modules.laser.level);
    GainPositive(key, galaxyIndex, p.modules.laser.level);
    var paid := p.(resources := p.resources.With(key, p.resources.Get(key) + gain),
                   coins := p.coins + (gain as real * 0.15).Floor as real);
    assert (gain as real * 0.15).Floor >= 0;
    ApplyDecayOk(paid, LaserModule, 1.4);
    ApplyDecayOk(ApplyDecay(paid, LaserModule, 1.4), ScannerModule, 0.7);
  }

  lemma HarvestKeepsInv(st: State, now: int, u: Unit)
    requires Inv(st)
    ensures Inv(Harvest(st, now, u))
  {
    var (pi, ri) := HarvestSite(st);
    var pl := st.galaxy.planets[pi];
    var rg := pl.regions[ri];
    if CanHarvest(rg, now) {
      var key := HarvestResource(rg.resources, u);
      var tier := TierFor(Tiers(key), st.galaxy.index);
      assert RegionOk(rg);
      HarvestedOk(rg, now, tier, st.player.modules.laser.level);
      ReapedOk(st.player, key, st.galaxy.index);
      var regions := pl.regions[ri := Harvested(rg, now, tier, st.player.modules.laser.level)];
      WithPlanetOk(st.galaxy, pi, pl.(regions := regions, completedPct := PlanetCompletion(regions)));
    }
  }

  lemma UnlockKeepsInv(st: State, now: int)
    requires Inv(st)
    ensures Inv(UnlockArtefact(st, now))
  {
    var (pi, ri) := SelectedSite(st);
    var rg := st.galaxy.planets[pi].regions[ri];
    if Unrevealed(rg) && rg.artefactUnlockStart == 0 {
      assert RegionOk(rg);
      ReplaceRegionOk(st.galaxy, pi, ri, rg.(artefactUnlockStart := now));
    }
  }

  /** Revealing the artefact of a flagged region keeps the invariant. */
  lemma FinishKeepsInv(st: State, pi: nat, ri: nat, rarityDraw: Unit, itemDraw: Unit)
    requires Inv(st) && pi < |st.galaxy.planets| && ri < |st.galaxy.planets[pi].regions|
    requires st.galaxy.planets[pi].regions[ri].hasArtefactUnknown
    ensures Inv(FinishArtefact(st, pi, ri, rarityDraw, itemDraw))
  {
    var a := RollArtefact(rarityDraw, itemDraw);
    var rg := st.galaxy.planets[pi].regions[ri];
    assert RegionOk(rg);
    ReplaceRegionOk(st.galaxy, pi, ri, rg.(artefactRevealed := Some(a)));
  }

  lemma TickKeepsInv(st: State, now: int, rarityDraw: Unit, itemDraw: Unit)
    requires Inv(st)
    ensures Inv(Tick(st, now, rarityDraw, itemDraw))
  {
    var dt := (now - st.lastTick) as real / 1000.0;
    var ticked := st.(lastTick := now, player := Regenerate(st.player, dt, ColonisedCount(st.journal)));
    assert Inv(ticked);
    var (pi, ri) := SelectedSite(st);
    if UnlockDue(st.galaxy.planets[pi].regions[ri], now) {
      assert RegionOk(st.galaxy.planets[pi].regions[ri]);
      FinishKeepsInv(ticked, pi, ri, rarityDraw, itemDraw);
    }
  }

  lemma SelectPlanetKeepsInv(st: State, id: nat, draws: seq<Unit>)
    requires Inv(st) && |draws| >= 8
    ensures Inv(SelectPlanet(st, id, draws))
  {
  }

  lemma SelectRegionKeepsInv(st: State, id: RegionId)
    requires Inv(st)
    ensures Inv(SelectRegion(st, id))
  {
  }

  /** Opening the market gives back the market on display: prices stay put between visits. */
  lemma OpenMarketStable(st: State)
    requires Inv(st)
    ensures OpenMarket(st) == st
  {
    RepriceSameBonus(st.market, st.player.upgrades.marketSellBonus);
  }

  lemma JumpKeepsInv(st: State, g: Galaxy, draws: seq<Unit>)
    requires Inv(st) && GalaxyOk(g) && |draws| >= 8
    ensures Inv(JumpGalaxy(st, g, draws))
  {
  }

  lemma UpgradeKeepsInv(st: State, n: ModuleName, kind: ModuleUpgrade)
    requires Inv(st)
    ensures Inv(UpgradeModule(st, n, kind))
  {
    UpgradedOk(st.player.modules.Get(n), kind);
  }

  lemma BuyKeepsInv(st: State, kind: Purchase)
    requires Inv(st)
    ensures Inv(Buy(st, kind))
  {
    RepricedOk(st.market, st.player.upgrades.marketSellBonus, Buy(st, kind).player.upgrades.marketSellBonus);
  }

  lemma SellArtefactKeepsInv(st: State)
    requires Inv(st)
    ensures Inv(SellArtefact(st))
  {
  }

  lemma SellResourceKeepsInv(st: State, r: Resource)
    requires Inv(st)
    ensures Inv(SellResource(st, r))
  {
  }

  // ---------------------------------------------------------------------------
  // Runs of events from a new game
  // ---------------------------------------------------------------------------

  /** Everything that can happen to the state: a player action with its inputs, or a frame of the loop. */
  datatype Event =
    | TravelSelected(now: int)
    | HarvestAt(now: int, u: Unit)
    | Unlock(now: int)
    | Frame(now: int, rarityDraw: Unit, itemDraw: Unit)
    | PickPlanet(id: nat, draws: seq<Unit>)
    | PickRegion(region: RegionId)
    | MarketOpened
    | Jump(galaxy: Galaxy, draws: seq<Unit>)
    | ModuleBought(name: ModuleName, kind: ModuleUpgrade)
    | Bought(purchase: Purchase)
    | ArtefactSold
    | ResourceSold(resource: Resource)

  /**
   * The inputs an event needs: a market stream of eight draws, a clock that
   * does not run backwards, and for a jump the next galaxy in order
   * (GeneratedJump: what generateGalaxy builds for the next index is one).
   */
  predicate Enabled(st: State, e: Event)
  {
    match e
    case Frame(now, _, _) => now >= st.lastTick
    case PickPlanet(_, draws) => |draws| >= 8
    case MarketOpened => true
    case Jump(g, draws) => GalaxyOk(g) && g.index == st.galaxyIndex + 1 && |draws| >= 8
    case _ => true
  }

  function Apply(st: State, e: Event): State
    requires Inv(st) && Enabled(st, e)
  {
    match e
    case TravelSelected(now) => Travel(st, now)
    case HarvestAt(now, u) => Harvest(st, now, u)
    case Unlock(now) => UnlockArtefact(st, now)
    case Frame(now, r, v) => Tick(st, now, r, v)
    case PickPlanet(id, draws) => SelectPlanet(st, id, draws)
    case PickRegion(id) => SelectRegion(st, id)
    case MarketOpened => OpenMarket(st)
    case Jump(g, draws) => JumpGalaxy(st, g, draws)
    case ModuleBought(n, kind) => UpgradeModule(st, n, kind)
    case Bought(kind) => Buy(st, kind)
    case ArtefactSold => SellArtefact(st)
    case ResourceSold(r) => SellResource(st, r)
  }

  lemma ApplyKeepsInv(st: State, e: Event)
    requires Inv(st) && Enabled(st, e)
    ensures Inv(Apply(st, e))
  {
    match e
    case TravelSelected(now) => TravelKeepsInv(st, now);
    case HarvestAt(now, u) => HarvestKeepsInv(st, now, u);
    case Unlock(now) => UnlockKeepsInv(st, now);
    case Frame(now, r, v) => TickKeepsInv(st, now, r, v);
    case PickPlanet(id, draws) => SelectPlanetKeepsInv(st, id, draws);
    case PickRegion(id) => SelectRegionKeepsInv(st, id);
    case MarketOpened => OpenMarketStable(st);
    case Jump(g, draws) => JumpKeepsInv(st, g, draws);
    case ModuleBought(n, kind) => UpgradeKeepsInv(st, n, kind);
    case Bought(kind) => BuyKeepsInv(st, kind);
    case ArtefactSold => SellArtefactKeepsInv(st);
    case ResourceSold(r) => SellResourceKeepsInv(st, r);
  }

  /** A jump to the galaxy generateGalaxy builds for the next index is enabled. */
  lemma GeneratedJump(st: State, next: int, seed: int, stream: seq<Unit>, now: int, draws: seq<Unit>)
    requires Inv(st) && next == st.galaxyIndex + 1 && |draws| >= 8
    requires Generate(seed, stream, next, now).Some?
    ensures Enabled(st, Jump(NewGalaxy(seed, stream, next, now), draws))
  {
  }

  // ---------------------------------------------------------------------------
  // Coins and fuel never go negative
  // ---------------------------------------------------------------------------

  /** Regeneration over a non-negative time only adds coins, and leaves fuel between 0 and the maximum. */
  lemma RegenerateSolvent(p: Player, dt: real, colonised: nat)
    requires p.coins >= 0.0 && p.fuel >= 0.0 && p.maxFuel >= 0 && p.fuelRegenBase >= 0.0 && dt >= 0.0
    ensures Regenerate(p, dt, colonised).coins >= p.coins
    ensures 0.0 <= Regenerate(p, dt, colonised).fuel <= p.maxFuel as real
  {
    var c := colonised as real;
    assert dt * c >= 0.0;
    assert dt * c * 0.5 >= 0.0;
    assert (p.fuelRegenBase + c * 0.02) * dt >= 0.0;
  }

  /** A frame only adds coins, and fuel regenerates up to a maximum that is not negative. */
  lemma TickKeepsSolvent(st: State, now: int, rarityDraw: Unit, itemDraw: Unit)
    requires Inv(st) && Solvent(st) && now >= st.lastTick
    ensures Solvent(Tick(st, now, rarityDraw, itemDraw))
    ensures Tick(st, now, rarityDraw, itemDraw).player.coins >= st.player.coins
  {
    var dt := (now - st.lastTick) as real / 1000.0;
    RegenerateSolvent(st.player, dt, ColonisedCount(st.journal));
  }

  lemma ApplyKeepsSolvent(st: State, e: Event)
    requires Inv(st) && Solvent(st) && Enabled(st, e)
    ensures Solvent(Apply(st, e))
  {
    match e
    case TravelSelected(now) => TravelKeepsSolvent(st, now);
    case HarvestAt(now, u) => HarvestKeepsSolvent(st, now, u);
    case Unlock(now) => assert Solvent(UnlockArtefact(st, now));
    case Frame(now, r, v) => TickKeepsSolvent(st, now, r, v);
    case PickPlanet(id, draws) => assert Solvent(SelectPlanet(st, id, draws));
    case PickRegion(id) => assert Solvent(SelectRegion(st, id));
    case MarketOpened => OpenMarketStable(st);
    case Jump(g, draws) => assert Solvent(JumpGalaxy(st, g, draws));
    case ModuleBought(n, kind) => UpgradeKeepsSolvent(st, n, kind);
    case Bought(kind) => BuyKeepsSolvent(st, kind);
    case ArtefactSold => SellArtefactKeepsSolvent(st);
    case ResourceSold(r) => SellResourceKeepsSolvent(st, r);
  }

  lemma TravelKeepsSolvent(st: State, now: int)
    requires Inv(st) && Solvent(st)
    ensures Solvent(Travel(st, now))
  {
  }

  lemma HarvestKeepsSolvent(st: State, now: int, u: Unit)
    requires Inv(st) && Solvent(st)
    ensures Solvent(Harvest(st, now, u))
  {
    var (pi, ri) := HarvestSite(st);
    var rg := st.galaxy.planets[pi].regions[ri];
    if CanHarvest(rg, now) {
      ReapedOk(st.player, HarvestResource(rg.resources, u), st.galaxy.index);
    }
  }

  lemma UpgradeKeepsSolvent(st: State, n: ModuleName, kind: ModuleUpgrade)
    requires Inv(st) && Solvent(st)
    ensures Solvent(UpgradeModule(st, n, kind))
  {
  }

  lemma BuyKeepsSolvent(st: State, kind: Purchase)
    requires Inv(st) && Solvent(st)
    ensures Solvent(Buy(st, kind))
  {
  }

  lemma SellArtefactKeepsSolvent(st: State)
    requires Inv(st) && Solvent(st)
    ensures Solvent(SellArtefact(st))
  {
    if st.player.artefacts != [] {
      assert st.market.prices[ArtefactKey(st.player.artefacts[0].rarity)] >= 0;
    }
  }

  lemma SellResourceKeepsSolvent(st: State, r: Resource)
    requires Inv(st) && Solvent(st)
    ensures Solvent(SellResource(st, r))
  {
    assert st.market.prices[ResourceKey(r)] >= 0;
    assert st.player.resources.Get(r) >= 0;
  }

  // ---------------------------------------------------------------------------
  // Runs of events
  // ---------------------------------------------------------------------------

  /** The state after the events, as long as each is enabled when it comes; None once one is not. */
  function Run(st: State, es: seq<Event>): Option<State>
    requires Inv(st)
    decreases |es|
  {
    if es == [] then Some(st)
    else if !Enabled(st, es[0]) then None
    else
      ApplyKeepsInv(st, es[0]);
      Run(Apply(st, es[0]), es[1..])
  }

  /** Every state a run reaches from a state in order, with coins and fuel not negative, is one too. */
  lemma {:induction false} RunKeepsInv(st: State, es: seq<Event>)
    requires Inv(st) && Solvent(st) && Run(st, es).Some?
    ensures Inv(Run(st, es).value) && Solvent(Run(st, es).value)
    decreases |es|
  {
    if es != [] {
      ApplyKeepsInv(st, es[0]);
      ApplyKeepsSolvent(st, es[0]);
      RunKeepsInv(Apply(st, es[0]), es[1..]);
    }
  }

  /** Whatever the player does, from a new game the state stays in order and coins and fuel stay non-negative. */
  lemma ReachableOk(baseSeed: int, seed: int, s: seq<Unit>, now: int, draws: seq<Unit>, es: seq<Event>)
    requires Generate(seed, s, 1, now).Some? && |draws| >= 8
    requires Run(Initial(baseSeed, seed, s, now, draws), es).Some?
    ensures Inv(Run(Initial(baseSeed, seed, s, now, draws), es).value)
    ensures Solvent(Run(Initial(baseSeed, seed, s, now, draws), es).value)
  {
    RunKeepsInv(Initial(baseSeed, seed, s, now, draws), es);
  }
}
