/**
 * The pure rules behind the game's actions: module wear, the harvest yield
 * tables, the artefact rarity roll and item pools, lookups that fall back to
 * the first entry, and completion percentages.
 */
module Rules {
  import opened Rng
  import opened Gen

  // ---------------------------------------------------------------------------
  // Lookups
  // ---------------------------------------------------------------------------

  /** `xs.find(matches)`, as a position: the first index from `from` on whose element matches. */
  function FindFirst<T>(xs: seq<T>, matches: T -> bool, from: nat): (r: Option<nat>)
    requires from <= |xs|
    ensures r.Some? ==> from <= r.value < |xs| && matches(xs[r.value])
    ensures r.Some? ==> forall j :: from <= j < r.value ==> !matches(xs[j])
    ensures r.None? ==> forall j :: from <= j < |xs| ==> !matches(xs[j])
    decreases |xs| - from
  {
    if from == |xs| then None
    else if matches(xs[from]) then Some(from)
    else FindFirst(xs, matches, from + 1)
  }

  /** getPlanet: the planet whose id is `id`, or the first planet when there is none. */
  function PlanetIndex(ps: seq<Planet>, id: nat): (i: nat)
    requires |ps| > 0
    ensures i < |ps|
    ensures (exists k :: 0 <= k < |ps| && ps[k].id == id) ==> ps[i].id == id && forall k :: 0 <= k < i ==> ps[k].id != id
    ensures (forall k :: 0 <= k < |ps| ==> ps[k].id != id) ==> i == 0
  {
    match FindFirst(ps, (p: Planet) => p.id == id, 0)
    case None => 0
    case Some(k) => k
  }

  /** getRegion: the region whose id is `id`, or the first region when there is none. */
  function RegionIndex(rs: seq<Region>, id: RegionId): (i: nat)
    requires |rs| > 0
    ensures i < |rs|
    ensures (exists k :: 0 <= k < |rs| && rs[k].id == id) ==> rs[i].id == id && forall k :: 0 <= k < i ==> rs[k].id != id
    ensures (forall k :: 0 <= k < |rs| ==> rs[k].id != id) ==> i == 0
  {
    match FindFirst(rs, (r: Region) => r.id == id, 0)
    case None => 0
    case Some(k) => k
  }

  // ---------------------------------------------------------------------------
  // Modules and their wear
  // ---------------------------------------------------------------------------

  datatype ModuleName = ScannerModule | ShieldModule | LaserModule

  datatype Module = Module(level: int, durability: real, durabilityMax: int, decayRate: real)

  /** `state.player.modules`: one module of each kind. */
  datatype Modules = Modules(scanner: Module, shield: Module, laser: Module) {
    function Get(n: ModuleName): Module
    {
      match n
      case ScannerModule => scanner
      case ShieldModule => shield
      case LaserModule => laser
    }

    function With(n: ModuleName, m: Module): Modules
    {
      match n
      case ScannerModule => this.(scanner := m)
      case ShieldModule => this.(shield := m)
      case LaserModule => this.(laser := m)
    }
  }

  /** A module in working order: level at least 1, some durability left, decay rate at its floor or above. */
  predicate ModuleOk(m: Module)
  {
    m.level >= 1 && m.durabilityMax >= 1 && 0.0 < m.durability <= m.durabilityMax as real && m.decayRate >= 0.35
  }

  /** applyDecay on one module: wear of base * decayRate; a worn-out module loses a level and is repaired. */
  function Decay(m: Module, base: real): Module
  {
    var durability := m.durability - base * m.decayRate;
    if durability <= 0.0 then
      m.(level := Max(1, m.level - 1), durability := m.durabilityMax as real)
    else
      m.(durability := durability)
  }

  /**
   * Wear never takes a level below 1 and takes at most one level; the module
   * loses a level exactly when its durability would reach 0, and then it is
   * back at full durability.  Its maximum and decay rate do not change.
   */
  lemma DecayBounds(m: Module, base: real)
    requires m.level >= 1
    ensures var r := Decay(m, base);
      && r.level >= 1 && m.level - 1 <= r.level <= m.level
      && r.durabilityMax == m.durabilityMax && r.decayRate == m.decayRate
      && (m.durability - base * m.decayRate <= 0.0 ==> r.durability == m.durabilityMax as real)
      && (m.durability - base * m.decayRate > 0.0 ==> r == m.(durability := m.durability - base * m.decayRate))
  {
  }

  /** Wear keeps a module in working order. */
  lemma DecayKeepsModuleOk(m: Module, base: real)
    requires ModuleOk(m) && base >= 0.0
    ensures ModuleOk(Decay(m, base))
  {
    assert base * m.decayRate >= 0.0;
  }

  datatype ModuleUpgrade = LevelUp | DurabilityUp | DecayUp

  /** The coin cost of a module upgrade: 80 per current level, 90, or 70. */
  function UpgradeCost(m: Module, kind: ModuleUpgrade): int
  {
    match kind
    case LevelUp => 80 * m.level
    case DurabilityUp => 90
    case DecayUp => 70
  }

  /** The module after a paid upgrade. */
  function Upgraded(m: Module, kind: ModuleUpgrade): Module
  {
    match kind
    case LevelUp => m.(level := m.level + 1)
    case DurabilityUp => m.(durabilityMax := m.durabilityMax + 20, durability := (m.durabilityMax + 20) as real)
    case DecayUp => m.(decayRate := RMax(0.35, m.decayRate - 0.08))
  }

  function RMax(a: real, b: real): real { if a <= b then b else a }

  /** Upgrades keep a module in working order and never lower its decay rate under 0.35. */
  lemma UpgradedOk(m: Module, kind: ModuleUpgrade)
    requires ModuleOk(m)
    ensures ModuleOk(Upgraded(m, kind))
    ensures kind == DurabilityUp ==> Upgraded(m, kind).durability == Upgraded(m, kind).durabilityMax as real
  {
  }

  // ---------------------------------------------------------------------------
  // The player's holdings
  // ---------------------------------------------------------------------------

  /** `state.player.resources`: a stock per resource. */
  datatype Stock = Stock(metal: int, energy: int, organic: int) {
    function Get(r: Resource): int
    {
      match r
      case Metal => metal
      case Energy => energy
      case Organic => organic
    }

    function With(r: Resource, v: int): Stock
    {
      match r
      case Metal => this.(metal := v)
      case Energy => this.(energy := v)
      case Organic => this.(organic := v)
    }

    /** `Object.values(resources).reduce((a, v) => a + v, 0)` */
    function Total(): int
    {
      metal + energy + organic
    }
  }

  /** `state.player.upgrades` */
  datatype Upgrades = Upgrades(
    fuelCostMultiplier: real,
    marketSellBonus: real,
    emergencyDiscount: real,
    scannerInfoLevel: int)

  /** The ranges the purchases keep the upgrades in. */
  predicate UpgradesOk(u: Upgrades)
  {
    && 0.6 <= u.fuelCostMultiplier
    && 1.0 <= u.marketSellBonus
    && 0.75 <= u.emergencyDiscount <= 1.0
    && 0 <= u.scannerInfoLevel <= 2
  }

  /** `state.collections`: the distinct items found, per category. */
  datatype Collections = Collections(dna: seq<string>, fossil: seq<string>, life: seq<string>) {
    function Get(c: Category): seq<string>
    {
      match c
      case DNA => dna
      case Fossil => fossil
      case Life => life
    }

    function With(c: Category, items: seq<string>): Collections
    {
      match c
      case DNA => this.(dna := items)
      case Fossil => this.(fossil := items)
      case Life => this.(life := items)
    }
  }

  predicate NoDuplicates(xs: seq<string>)
  {
    forall i, j :: 0 <= i < j < |xs| ==> xs[i] != xs[j]
  }

  /** Adds an item unless the collection already holds it. */
  function Collect(items: seq<string>, item: string): (r: seq<string>)
    ensures item in r && forall x :: x in r <==> x in items || x == item
    ensures NoDuplicates(items) ==> NoDuplicates(r)
  {
    if item in items then items else items + [item]
  }

  // ---------------------------------------------------------------------------
  // Harvest yield
  // ---------------------------------------------------------------------------

  /** One tier of a resource category. */
  datatype Tier = Tier(minGalaxy: int, baseYield: int, waitSeconds: int)

  /** The built-in resource table: three tiers per resource. */
  function Tiers(r: Resource): (ts: seq<Tier>)
    ensures |ts| == 3
  {
    match r
    case Metal => [Tier(1, 8, 1), Tier(15, 6, 2), Tier(35, 4, 3)]
    case Energy => [Tier(1, 7, 1), Tier(15, 5, 2), Tier(35, 3, 3)]
    case Organic => [Tier(1, 9, 1), Tier(15, 6, 2), Tier(35, 4, 3)]
  }

  /** The last of the first n tiers whose minGalaxy the index reaches, searching from the end. */
  function LastReached(tiers: seq<Tier>, index: int, n: nat): (r: Option<nat>)
    requires n <= |tiers|
    ensures r.Some? ==> r.value < n && tiers[r.value].minGalaxy <= index
    ensures r.Some? ==> forall j :: r.value < j < n ==> tiers[j].minGalaxy > index
    ensures r.None? ==> forall j :: 0 <= j < n ==> tiers[j].minGalaxy > index
  {
    if n == 0 then None
    else if tiers[n - 1].minGalaxy <= index then Some(n - 1)
    else LastReached(tiers, index, n - 1)
  }

  /** `[...tiers].reverse().find((t) => index >= t.minGalaxy) || tiers[0]` */
  function TierFor(tiers: seq<Tier>, index: int): (t: Tier)
    requires |tiers| > 0
    ensures t in tiers
  {
    match LastReached(tiers, index, |tiers|)
    case None => tiers[0]
    case Some(k) => tiers[k]
  }

  /** With the built-in table: tier 1 from galaxy 15, tier 2 from galaxy 35, tier 0 before (and as the fallback). */
  lemma TierForTable(r: Resource, index: int)
    ensures TierFor(Tiers(r), index) == Tiers(r)[if index >= 35 then 2 else if index >= 15 then 1 else 0]
  {
    var ts := Tiers(r);
    if index < 1 {
      assert LastReached(ts, index, 3) == None;
    }
  }

  /** `region.resources[floor(u * length)] || 'metal'`: a listed resource, or metal for a barren region. */
  function HarvestResource(resources: seq<Resource>, u: Unit): (r: Resource)
    ensures resources == [] ==> r == Metal
    ensures resources != [] ==> r in resources
  {
    if resources == [] then Metal else resources[PickIndex(u, |resources|)]
  }

  /** The yield of a harvest: the tier's base yield plus the laser level. */
  function Gain(r: Resource, galaxyIndex: int, laserLevel: int): int
  {
    TierFor(Tiers(r), galaxyIndex).baseYield + laserLevel
  }

  /** Progress of one harvest: 8 + 0.8 per laser level, never past 100. */
  function HarvestedPct(pct: real, laserLevel: int): (r: real)
    ensures r <= 100.0
    ensures r == 100.0 || r == pct + 8.0 + laserLevel as real * 0.8
    ensures pct <= 100.0 && laserLevel >= 0 ==> pct <= r
  {
    RMin(100.0, pct + 8.0 + laserLevel as real * 0.8)
  }

  // ---------------------------------------------------------------------------
  // Artefacts
  // ---------------------------------------------------------------------------

  /** rarityRoll: ultra below 1/20, rare below 1/5, common otherwise. */
  function RarityRoll(r: Unit): (rarity: Rarity)
    ensures rarity == Ultra <==> r < 1.0 / 20.0
    ensures rarity == Rare <==> 1.0 / 20.0 <= r < 1.0 / 5.0
    ensures rarity == Common <==> 1.0 / 5.0 <= r
  {
    if r < 1.0 / 20.0 then Ultra else if r < 1.0 / 5.0 then Rare else Common
  }

  /** Common artefacts are DNA, rare ones Fossils, ultra ones Life. */
  function CategoryOf(rarity: Rarity): Category
  {
    match rarity
    case Common => DNA
    case Rare => Fossil
    case Ultra => Life
  }

  /** The built-in artefact table: the items of each category. */
  function Pool(c: Category): (items: seq<string>)
    ensures |items| > 0
  {
    match c
    case DNA => ["Helix Fragment", "Genome Coil", "Spiral Marker", "Gene Thread", "Chromo Bead"]
    case Fossil => ["Bone Lattice", "Amber Imprint", "Shell Archive", "Stone Rib"]
    case Life => ["Living Spore", "Echo Seed", "Prime Cell"]
  }

  /** finishArtefact's roll: rarity from one draw, the item of the matching category from another. */
  function RollArtefact(r: Unit, v: Unit): (a: Artefact)
    ensures a.rarity == RarityRoll(r) && a.category == CategoryOf(a.rarity)
    ensures a.item in Pool(a.category)
  {
    var rarity := RarityRoll(r);
    var category := CategoryOf(rarity);
    Artefact(category, rarity, Pool(category)[PickIndex(v, |Pool(category)|)])
  }

  /** The per-rarity tally of the held artefacts. */
  datatype RarityCounts = RarityCounts(common: nat, rare: nat, ultra: nat)

  /** `artefacts.reduce((a, x) => (a[x.rarity]++, a), {common: 0, rare: 0, ultra: 0})` */
  function CountRarities(artefacts: seq<Artefact>): RarityCounts
  {
    if artefacts == [] then RarityCounts(0, 0, 0)
    else
      var c := CountRarities(artefacts[..|artefacts| - 1]);
      match artefacts[|artefacts| - 1].rarity
      case Common => c.(common := c.common + 1)
      case Rare => c.(rare := c.rare + 1)
      case Ultra => c.(ultra := c.ultra + 1)
  }

  /** The three counts add up to the number of artefacts held. */
  lemma {:induction false} CountRaritiesTotal(artefacts: seq<Artefact>)
    ensures var c := CountRarities(artefacts);
      c.common + c.rare + c.ultra == |artefacts|
  {
    if artefacts != [] {
      CountRaritiesTotal(artefacts[..|artefacts| - 1]);
    }
  }

  // ---------------------------------------------------------------------------
  // Completion
  // ---------------------------------------------------------------------------

  /** `regions.reduce((a, r) => a + r.harvestedPct, 0)` */
  function SumPct(rs: seq<Region>): real
  {
    if rs == [] then 0.0 else SumPct(rs[..|rs| - 1]) + rs[|rs| - 1].harvestedPct
  }

  predicate PctInRange(rs: seq<Region>)
  {
    forall j :: 0 <= j < |rs| ==> 0.0 <= rs[j].harvestedPct <= 100.0
  }

  /**
   * With every region between 0 and 100 percent, the sum lies between 0 and
   * 100 per region, and reaches 100 per region exactly when every region is
   * at 100.
   */
  lemma {:induction false} SumPctBounds(rs: seq<Region>)
    requires PctInRange(rs)
    ensures 0.0 <= SumPct(rs) <= 100.0 * |rs| as real
    ensures SumPct(rs) == 100.0 * |rs| as real <==> forall j :: 0 <= j < |rs| ==> rs[j].harvestedPct == 100.0
  {
    if rs != [] {
      var init := rs[..|rs| - 1];
      assert PctInRange(init) by {
        forall j | 0 <= j < |init| ensures 0.0 <= init[j].harvestedPct <= 100.0 {
          assert init[j] == rs[j];
        }
      }
      SumPctBounds(init);
      if forall j :: 0 <= j < |rs| ==> rs[j].harvestedPct == 100.0 {
        assert forall j :: 0 <= j < |init| ==> init[j].harvestedPct == 100.0 by {
          forall j | 0 <= j < |init| ensures init[j].harvestedPct == 100.0 {
            assert init[j] == rs[j];
          }
        }
      }
    }
  }

  lemma {:induction false} SumPctAppend(a: seq<Region>, b: seq<Region>)
    ensures SumPct(a + b) == SumPct(a) + SumPct(b)
    decreases |b|
  {
    if b == [] {
      assert a + b == a;
    } else {
      var c := b[..|b| - 1];
      assert (a + b)[..|a + b| - 1] == a + c;
      SumPctAppend(a, c);
    }
  }

  /** recomputePlanetCompletion: floor of the mean harvested percentage. */
  function PlanetCompletion(rs: seq<Region>): int
    requires |rs| > 0
  {
    (SumPct(rs) / |rs| as real).Floor
  }

  /** The mean of a total of at most 100 per item is a percentage, 100 exactly when the total is 100 per item. */
  lemma MeanBounds(sum: real, nr: real)
    requires nr > 0.0 && 0.0 <= sum <= 100.0 * nr
    ensures 0.0 <= sum / nr <= 100.0
    ensures sum / nr == 100.0 <==> sum == 100.0 * nr
  {
    var m := sum / nr;
    assert m * nr == sum;
  }

  /** A completion percentage lies in [0, 100], and is 100 exactly when every region is fully harvested. */
  lemma CompletionBounds(sum: real, n: nat, rs: seq<Region>)
    requires n == |rs| > 0 && PctInRange(rs) && sum == SumPct(rs)
    ensures 0 <= (sum / n as real).Floor <= 100
    ensures (sum / n as real).Floor == 100 <==> forall j :: 0 <= j < n ==> rs[j].harvestedPct == 100.0
  {
    SumPctBounds(rs);
    MeanBounds(sum, n as real);
  }

  /** The completion of a planet is a percentage, 100 exactly when all its regions are fully harvested. */
  lemma PlanetCompletionBounds(rs: seq<Region>)
    requires |rs| > 0 && PctInRange(rs)
    ensures 0 <= PlanetCompletion(rs) <= 100
    ensures PlanetCompletion(rs) == 100 <==> forall j :: 0 <= j < |rs| ==> rs[j].harvestedPct == 100.0
  {
    CompletionBounds(SumPct(rs), |rs|, rs);
  }

  /** The galaxy's harvested percentage summed planet by planet. */
  function GalaxyPct(ps: seq<Planet>): real
  {
    if ps == [] then 0.0 else SumPct(ps[0].regions) + GalaxyPct(ps[1..])
  }

  /** Summing planet by planet is summing over all regions. */
  lemma {:induction false} GalaxyPctIsFlatSum(ps: seq<Planet>)
    ensures GalaxyPct(ps) == SumPct(Flat(ps))
    decreases |ps|
  {
    if ps != [] {
      GalaxyPctIsFlatSum(ps[1..]);
      SumPctAppend(ps[0].regions, Flat(ps[1..]));
    }
  }

  /** computeGalaxyCompletion: floor of the summed percentages over totalRegions. */
  function GalaxyCompletion(g: Galaxy): int
    requires g.totalRegions > 0
  {
    (GalaxyPct(g.planets) / g.totalRegions as real).Floor
  }

  /**
   * When totalRegions counts the regions and each is within [0, 100], galaxy
   * completion is a percentage, 100 exactly when every region is fully harvested.
   */
  lemma GalaxyCompletionBounds(g: Galaxy)
    requires g.totalRegions == |Flat(g.planets)| > 0 && PctInRange(Flat(g.planets))
    ensures 0 <= GalaxyCompletion(g) <= 100
    ensures GalaxyCompletion(g) == 100 <==>
              forall j :: 0 <= j < g.totalRegions ==> Flat(g.planets)[j].harvestedPct == 100.0
  {
    GalaxyPctIsFlatSum(g.planets);
    CompletionBounds(GalaxyPct(g.planets), g.totalRegions, Flat(g.planets));
  }

  /** Every flagged region has had its artefact revealed. */
  predicate AllRevealed(ps: seq<Planet>)
  {
    forall rg :: rg in Flat(ps) ==> !rg.hasArtefactUnknown || rg.artefactRevealed.Some?
  }

  /** A galaxy counts as colonised when it is complete and every flagged artefact is revealed. */
  function Colonised(completedPct: int, ps: seq<Planet>): bool
  {
    completedPct == 100 && AllRevealed(ps)
  }
}
