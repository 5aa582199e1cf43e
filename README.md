# Galaxy Harvest — a verified model of the game core

Galaxy Harvest (the Space-Genie repository) is a browser game. The player
travels between hex regions of procedurally generated planets and harvests
resources. They unlock timed artefacts, trade at a market whose prices are
drawn per visit, upgrade modules that wear out, and jump to ever harder
galaxies, keeping a journal of the galaxies left behind.

This project models the game's core in Dafny and proves properties of it.

- **Galaxy generation** (`js/gen.js`) is modelled as pure functions over an
  explicit stream of draws:
  - `Hex` covers `hexDistance` and `makeHexSpiral`.
  - `Gen` covers `getDifficulty`, the planet-size rules, `artefactTargets` and
    `generateGalaxy`.
  - `GenFacts` holds what every generated galaxy looks like, and proves
    determinism.
- **The market** (`js/market.js`) is modelled as pure functions in `Market`:
  `computeMarket`, `basePrices` and `emergencyRecoveryCost`.
- **The game actions** (`js/app.js`) are modelled twice:
  - `Rules` holds the pure rules the actions use:
    - module wear and upgrades;
    - the resource tiers and the harvest yield;
    - the rarity roll and the artefact pools;
    - the `find(...) || first` lookups;
    - completion percentages.
  - `GameState` models each action, and the frame tick, as a transition
    function on one state value. `StateFacts` proves that every transition
    keeps the state invariant `Inv`. It also proves that coins and fuel never
    go negative, from a new game, under any sequence of player actions and
    frames in time order, that is, while `Date.now()` never goes back
    (`ReachableOk`).
  - `Effects` states what each action does: its refusals, its exact effect, and
    that nothing else changes. It also proves one-way progress: every action but
    the jump only moves regions further on.
  - `App.Game` is the running game as a class. Its fields are the saved state,
    `selectedRegionId` and `market`. Every action is a method that updates them
    in place, statement by statement as `js/app.js` does. Each method is proved
    to compute the matching `GameState` transition and to keep `Valid()`.

The seeded generator is not modelled as code. A stream of draws is a
`seq<Unit>`, where `Unit` is a real in [0, 1). A stream-consuming function
returns `Option<Drawn<T>>`: `None` means the stream ran out, and a
`Drawn<T>` is the value plus the unconsumed rest. `intInRange(lo, hi)` is
`floor(u * (hi - lo + 1)) + lo` and `pick(xs)` is `xs[floor(u * |xs|)]`. The
wall clock (`Date.now()`) is the parameter `now`, in milliseconds.

Where the code and the game's own written description differ, the model
follows the code:

- In galaxies 1 to 12 only the `tiny` size rule (2 to 4 regions) is allowed
  (`Gen.EarlyGalaxiesAreTiny`). The description also admits small planets in
  galaxy 1.
- A journal entry counts the rarities of the artefacts held when the jump
  happens. Artefacts sold earlier are no longer in `player.artefacts`, so they
  are not counted. The description speaks of the whole inventory history.

## Model

| member | source | states |
|---|---|---|
| Rng.IntInRange | js/gen.js:57 | an `intInRange` draw lies within its inclusive bounds |
| Rng.DrawInt | js/gen.js:65 | one draw gives an integer in [lo, hi] and consumes exactly one element; defined exactly when the stream is not empty |
| Rng.DrawPick | js/gen.js:64 | `pick` returns an element of the list and consumes one draw |
| Rng.PickIndex | js/app.js:89 | `floor(u * n)` is a valid index of an n-element list |
| Hex.Distance | js/gen.js:46-51 | twice the distance is the sum of the three absolute cube differences, so the halving is exact and the result is a natural number |
| Hex.DistanceIsMaxAbsDiff | js/gen.js:46-51 | the distance equals the largest of the three absolute cube differences (an independent definition) |
| Hex.DistanceSymmetric | js/gen.js:46-51 | the distance from a to b is the distance from b to a |
| Hex.DistanceToSelf | js/gen.js:46-51 | every coordinate is at distance 0 from itself |
| Hex.NeighboursAreUnitOffsets | js/gen.js:46-51 | two coordinates are at distance 1 exactly when their offset is one of the six step directions |
| Hex.Spiral | js/gen.js:20-37 | `makeHexSpiral(count)` has max(count, 1) coordinates and starts at the origin |
| Hex.MakeHexSpiral | js/gen.js:20-37 | the loop returns exactly `Spiral(count)` |
| Hex.WalkRing | js/gen.js:25-35 | one turn of the outer loop extends the output to a prefix of rings 0 to radius, and to the whole ring unless `count` is reached |
| Hex.WalkSide | js/gen.js:28-32 | the inner loop walks side d of the ring, stops after `radius` steps or at `count`, and leaves the output equal to the ring walk so far |
| Hex.RingStep | js/gen.js:29-31 | each step along side d moves the walk by that side's direction |
| Hex.Ring | js/gen.js:26-33 | ring k has 6k coordinates, the ring points in walking order |
| Hex.RingPointDistance | js/gen.js:26-33 | every point of ring k lies at distance k from the origin |
| Hex.RingPointInjective | js/gen.js:26-33 | the walk around one ring never visits a coordinate twice |
| Hex.RingsPrefix | js/gen.js:25-35 | the spiral up to ring a is a prefix of the spiral up to ring b for a <= b |
| Hex.RingsDistance | js/gen.js:25-35 | every coordinate up to ring n lies within distance n, and exactly at n on ring n |
| Hex.RingsDistinct | js/gen.js:25-35 | no coordinate occurs twice up to ring n |
| Hex.RingsOrdered | js/gen.js:25-35 | the distance from the origin never decreases along the walk |
| Hex.SpiralPrefix | js/gen.js:20-37 | a shorter spiral is a prefix of a longer one, so region ids map to the same hexes |
| Hex.SpiralLayer | js/gen.js:20-37 | the coordinates in the block of ring k lie at distance k |
| Hex.SpiralDistinct | js/gen.js:20-37 | no coordinate repeats in a spiral |
| Hex.SpiralOrdered | js/gen.js:20-37 | along a spiral the distance from the origin never decreases |
| Gen.DifficultyRanges | js/gen.js:11-18 | from galaxy 1 on: planetMin in [2, 4], planetMax in [4, 7], min <= max, hazard frequency in [0.15, 0.5] |
| Gen.DifficultyConstantFrom50 | js/gen.js:11-18 | from galaxy 50 on the difficulty is (4, 7, 0.5) |
| Gen.DifficultyMonotone | js/gen.js:11-18 | the planet bounds and the hazard frequency never decrease with the index |
| Gen.AllowedSizes | js/gen.js:62-63 | the allowed size rules are a non-empty prefix of the size table |
| Gen.EarlyGalaxiesAreTiny | js/gen.js:62-63 | galaxies 1 to 12 allow only the tiny rule, 2 to 4 regions |
| Gen.AllowedSizesWellFormed | js/gen.js:3-9 | every allowed rule has 2 <= min <= max <= 24 |
| Gen.RollResources | js/gen.js:76 | three draws; resource k is kept exactly when its draw exceeds 0.2, in metal, energy, organic order |
| Gen.RollHazard | js/gen.js:77-79 | a time hazard lasts 60 to 300 seconds with no cooldown yet; a shield hazard requires level 1 to 5; the kind is kept |
| Gen.RollRegion | js/gen.js:67-85 | a rolled region is fresh: id `P{p}-R{i}`, its spiral coordinate, 0 % and not harvested, discovered only if first, hazard in range, 20 to 75 unlock seconds, not flagged, no unlock started, nothing revealed |
| Gen.MapDraw | js/gen.js:67 | a `map` whose callback draws from the shared stream yields one result per element and keeps the results so far |
| Gen.MapWithDraws | js/gen.js:67-85 | the loop computes `MapDraw` from the start |
| Gen.RollRegions | js/gen.js:66-85 | a planet gets one fresh region per spiral coordinate |
| Gen.RegionMapFresh | js/gen.js:67-85 | continuing the region map from fresh regions yields only fresh regions |
| Gen.RollPlanet | js/gen.js:62-94 | a rolled planet is fresh: id p, an allowed size with its region count in the rule's range, fresh regions on the spiral, current region the first, 0 % complete |
| Gen.GeneratePlanet | js/gen.js:62-94 | the loop body computes `RollPlanet` |
| Gen.RollPlanets | js/gen.js:61-96 | the planet loop yields exactly the requested number of planets |
| Gen.RollPlanetsFresh | js/gen.js:61-96 | planet k of the loop is the fresh planet with id k + 1 |
| Gen.TargetLoop | js/gen.js:41-43 | the `while` loop ends with exactly `goal` distinct indices below n, extending the picks so far |
| Gen.ArtefactTargetsSpec | js/gen.js:39-44 | artefactTargets returns min(total, n) distinct indices below n, for the total drawn in [3, 5] |
| Gen.ArtefactTargets | js/gen.js:39-44 | the loop computes `ArtefactTargetsSpec` |
| Gen.SetFlag | js/gen.js:99 | flagging index idx of the flattened regions changes that region's flag and nothing else |
| Gen.SetFlagAdds | js/gen.js:99 | flagging idx adds exactly idx to the set of flagged positions |
| Gen.MarkAll | js/gen.js:98-99 | marking keeps the number of regions |
| Gen.MarkAllFlags | js/gen.js:98-99 | after marking, the flagged positions are the old ones plus the picks, and everything but the flags is unchanged |
| Gen.MarkTargets | js/gen.js:98-99 | the marking loop computes `MarkAll` |
| Gen.GenerateGalaxy | js/gen.js:53-112 | the generator computes `Generate` |
| GenFacts.FreshPlanetsUnflagged | js/gen.js:80 | freshly rolled planets carry no artefact flag |
| GenFacts.FreshPlanetsNotFlagged | js/gen.js:80 | before marking, no region of the galaxy is flagged |
| GenFacts.FlatLength | js/gen.js:95 | the flattened regions number the sum of the region counts, at least 2 per planet |
| GenFacts.DistinctCardinality | js/gen.js:41-43 | distinct picks make a set of the same size |
| GenFacts.GeneratedGalaxy | js/gen.js:53-112 | a generated galaxy has its index, seed, start time and 0 visits; a planet count within the difficulty bounds; every planet fresh apart from its flags; totalRegions equal to the number of regions, at least 4; and between 3 and 5 flagged regions |
| GenFacts.RollPlanetsExtends | js/gen.js:61-96 | the planet loop reads only a prefix of its stream |
| GenFacts.ArtefactTargetsExtends | js/gen.js:39-44 | artefactTargets reads only a prefix of its stream |
| GenFacts.GenerateExtends | js/gen.js:53-112 | generation is deterministic: the same seed, draws and clock give the same galaxy, and extra draws after those used change nothing |
| Market.KeyIndex | js/market.js:7-14 | the position of each price key in the draw order |
| Market.DrawMultipliers | js/market.js:7-14 | six draws; key k gets `low + u * spread` from draw number KeyIndex(k); defined exactly with six draws |
| Market.DrawBoost | js/market.js:16-20 | the boost happens exactly when the draw is below 0.12; the picked key's multiplier is tripled and every other one kept |
| Market.PricesOf | js/market.js:22 | every key is priced from its own multiplier |
| Market.ComputeMarket | js/market.js:5-24 | defined exactly when the stream has the 7 or 8 draws needed; boosted exactly when draw 7 is below 0.12; consumes exactly those draws |
| Market.RoundIsNearest | js/market.js:22 | `Math.round` is within half of its argument |
| Market.MultipliersFromDraws | js/market.js:7-20 | each multiplier is its scaled draw, tripled exactly for the key picked by draw 8 |
| Market.MultiplierRange | js/market.js:7-20 | before a boost every multiplier lies in [low, low + spread) |
| Market.BoostIsSingle | js/market.js:16-20 | only the boosted key's multiplier changes |
| Market.PriceIsRounded | js/market.js:22 | each price is within half a coin of base * multiplier * sellBonus |
| Market.BonusAffectsPricesOnly | js/market.js:5-24 | the sell bonus changes neither the multipliers, nor the boost, nor the draws used |
| Market.PricesNonNegative | js/market.js:22 | with a non-negative bonus no price is negative |
| Market.PriceMonotoneInBonus | js/market.js:22 | a larger sell bonus never lowers a price |
| Market.ComputeMarketExtends | js/market.js:5-24 | the market depends only on the draws it uses |
| Market.EmergencyRecoveryCost | js/market.js:26-28 | the cost is (90 + 4 * maxFuel) * discount, rounded to within half a coin |
| Market.EmergencyRecoveryCostMonotone | js/market.js:26-28 | a bigger tank never makes recovery cheaper, and a smaller discount factor never makes it dearer |
| Rules.FindFirst | js/app.js:25 | `find` returns the first matching position, or none when nothing matches |
| Rules.PlanetIndex | js/app.js:24-26 | getPlanet returns the first planet with the id, or planet 0 when none has it |
| Rules.RegionIndex | js/app.js:28-30 | getRegion returns the first region with the id, or region 0 when none has it |
| Rules.DecayBounds | js/app.js:32-39 | wear takes at most one level and never goes below level 1; a level is lost exactly when durability would reach 0, and then the module is at full durability; maximum and rate are kept |
| Rules.DecayKeepsModuleOk | js/app.js:32-39 | wear keeps a module in working order |
| Rules.UpgradedOk | js/app.js:185-190 | upgrades keep a module in working order with a decay rate of at least 0.35; the durability upgrade refills to the new maximum |
| Rules.Collect | js/app.js:131 | the collection afterwards holds the old items plus the item, and has no duplicate if it had none |
| Rules.LastReached | js/app.js:91 | the search from the end finds the last tier whose threshold the index reaches |
| Rules.TierFor | js/app.js:91 | the tier chosen is one of the table's |
| Rules.TierForTable | js/app.js:8 | with the built-in table the tier is 2 from galaxy 35, 1 from galaxy 15, and 0 before |
| Rules.HarvestResource | js/app.js:89 | the harvested resource is one of the region's resources, or metal for a barren region |
| Rules.HarvestedPct | js/app.js:96 | progress grows by 8 + 0.8 per laser level, capped at 100, and never decreases |
| Rules.RarityRoll | js/app.js:110-115 | ultra exactly below 1/20, rare exactly in [1/20, 1/5), common otherwise |
| Rules.Pool | js/app.js:9 | every artefact category has items |
| Rules.RollArtefact | js/app.js:124-128 | the rarity is the roll's, the category matches the rarity, and the item is from that category's pool |
| Rules.CountRaritiesTotal | js/app.js:149 | the per-rarity counts add up to the number of artefacts held |
| Rules.SumPctBounds | js/app.js:42 | the summed percentages lie in [0, 100 per region], with 100 per region exactly when all regions are at 100 |
| Rules.PlanetCompletionBounds | js/app.js:41-43 | a planet's completion is in [0, 100], and 100 exactly when all its regions are fully harvested |
| Rules.GalaxyPctIsFlatSum | js/app.js:143 | summing planet by planet is summing over all regions |
| Rules.GalaxyCompletionBounds | js/app.js:142-145 | galaxy completion is in [0, 100], and 100 exactly when every region is fully harvested |
| GameState.CurrentPlanet | js/app.js:24-26 | the current planet is a valid planet index |
| GameState.Ceil | js/app.js:65 | `Math.ceil` is the least integer not below its argument |
| GameState.TravelCost | js/app.js:65 | with the multiplier at its floor of 0.6 or above, a trip costs at least 1 fuel |
| GameState.MarketFor | js/app.js:138 | the recomputed market prices every key from its multiplier with the player's bonus, and no price is negative with a non-negative bonus |
| GameState.MarketPriced | js/market.js:5-24 | computeMarket gives every key a non-negative multiplier and a price rounded from that multiplier and the bonus |
| GameState.RepricedIsComputeMarket | js/market.js:5-24 | computing the market again from the same stream with another bonus gives the same multipliers and boost, with every price rounded again for the new bonus |
| GameState.RepriceSameBonus | js/app.js:197-199 | opening the market again with an unchanged bonus gives the market already shown |
| GameState.RepricedOk | js/app.js:247-248 | after the purchase's `openMarket()` the market is priced with the new bonus, and no price is negative |
| GameState.TripOf | js/app.js:61-65 | departure and destination are valid regions of the current planet |
| GameState.HarvestSite | js/app.js:82-83 | harvest works on a valid region of the current planet |
| GameState.SelectedSite | js/app.js:118 | the selected region is a valid region of the current planet |
| GameState.ColonisedCount | js/app.js:267 | the colonised count is at most the number of journal entries |
| GameState.GeneratedGalaxyOk | js/gen.js:53-112 | every generated galaxy satisfies the invariant the actions need |
| GameState.GeneratedLanding | js/app.js:162-163 | a generated galaxy has a first planet with a first region to land on |
| GameState.FreshPlanetsOk | js/gen.js:61-96 | fresh planets have up-to-date completion and well-formed regions |
| GameState.NewGalaxy | js/app.js:161 | the next galaxy is the generated one, with its index and the invariant |
| GameState.Start | js/app.js:309-316 | a new save satisfies the invariant, with coins and fuel not negative, in galaxy 1 with an empty journal |
| GameState.Initial | js/state.js:5-37 | createDefaultSave, once init has run, satisfies the invariant with coins and fuel not negative |
| StateFacts.ApplyDecayOk | js/app.js:32-39 | wear keeps the player in order and changes only the worn module |
| StateFacts.TravelledOk | js/app.js:69-77 | paying and wearing for a trip keeps the player in order |
| StateFacts.MovedOk | js/app.js:72-75 | moving within a planet keeps the galaxy in order |
| StateFacts.HarvestedOk | js/app.js:96-103 | a harvest keeps the region in order and never lowers its progress |
| StateFacts.GainPositive | js/app.js:92 | a harvest yields at least 3 |
| StateFacts.ReapedOk | js/app.js:94-100 | the harvest payment keeps the player in order, never lowers coins and leaves fuel alone |
| StateFacts.TravelKeepsInv | js/app.js:60-79 | travel keeps the invariant |
| StateFacts.HarvestKeepsInv | js/app.js:81-108 | harvest keeps the invariant |
| StateFacts.UnlockKeepsInv | js/app.js:117-122 | unlocking keeps the invariant |
| StateFacts.FinishKeepsInv | js/app.js:124-133 | revealing an artefact of a flagged region keeps the invariant |
| StateFacts.TickKeepsInv | js/app.js:262-279 | a frame keeps the invariant |
| StateFacts.SelectPlanetKeepsInv | js/app.js:135-140 | selecting a planet keeps the invariant |
| StateFacts.SelectRegionKeepsInv | js/app.js:318-324 | selecting a region keeps the invariant |
| StateFacts.OpenMarketStable | js/app.js:197-199 | opening the market gives back the market on display: prices are stable between visits |
| StateFacts.JumpKeepsInv | js/app.js:147-166 | the galaxy jump keeps the invariant |
| StateFacts.UpgradeKeepsInv | js/app.js:179-193 | a module upgrade keeps the invariant |
| StateFacts.BuyKeepsInv | js/app.js:219-249 | a purchase keeps the invariant |
| StateFacts.SellArtefactKeepsInv | js/app.js:204-207 | selling an artefact keeps the invariant |
| StateFacts.SellResourceKeepsInv | js/app.js:209-212 | selling a resource keeps the invariant |
| StateFacts.ApplyKeepsInv | js/app.js:60-281 | every enabled action or frame keeps the invariant |
| StateFacts.GeneratedJump | js/app.js:160-161 | a jump to the galaxy generated for the next index is always enabled |
| StateFacts.RegenerateSolvent | js/app.js:268-269 | regeneration over non-negative time only adds coins, and leaves fuel between 0 and the tank |
| StateFacts.TickKeepsSolvent | js/app.js:262-269 | a frame dated no earlier than the last one keeps coins and fuel non-negative and never lowers coins |
| StateFacts.TravelKeepsSolvent | js/app.js:66-69 | travel never makes fuel negative |
| StateFacts.HarvestKeepsSolvent | js/app.js:94-105 | harvest keeps coins and fuel non-negative |
| StateFacts.UpgradeKeepsSolvent | js/app.js:181-184 | an upgrade is paid only when the coins cover it |
| StateFacts.BuyKeepsSolvent | js/app.js:222-246 | a purchase is paid only when the coins cover it |
| StateFacts.SellArtefactKeepsSolvent | js/app.js:204-207 | a sale never lowers coins |
| StateFacts.SellResourceKeepsSolvent | js/app.js:209-212 | a sale never lowers coins |
| StateFacts.ApplyKeepsSolvent | js/app.js:60-281 | no enabled action or frame makes coins or fuel negative |
| StateFacts.RunKeepsInv | js/app.js:60-281 | every state reached by a run of enabled events, frames in time order, keeps the invariant, with coins and fuel non-negative |
| StateFacts.ReachableOk | js/state.js:5-37 | from a new game, whatever the player does, with frames in time order, the state keeps the invariant and coins and fuel stay non-negative |
| Effects.TravelRefusal | js/app.js:65-67 | a trip costs ceil((1 + 2 * distance) * multiplier), at least 1; a refused trip changes nothing |
| Effects.TravelCostBounds | js/app.js:65 | the cost is the product rounded up, and at least 1 |
| Effects.TravelEffect | js/app.js:69-77 | a trip that goes ahead costs exactly its fuel and never takes fuel below 0; the player stands on the discovered destination, and a lapsed time hazard there is re-armed for its seconds; no other region or planet changes, and of the player only the fuel and the shield and scanner wear do |
| Effects.HarvestRefusal | js/app.js:84-86 | harvest is a no-op on a harvested region, under an active time hazard, or before nextHarvestAt |
| Effects.HarvestProgress | js/app.js:91-106 | progress grows by 8 + 0.8 per laser level up to 100; the region is harvested exactly at 100; the next harvest waits the tier's seconds; the planet's completion is recomputed |
| Effects.HarvestYield | js/app.js:89-104 | the drawn resource (metal for a barren region) grows by the tier's base yield plus the laser level; no other resource changes; coins grow by 15 % of the yield, rounded down; the fuel refund comes only with the completing harvest |
| Effects.ReapedYield | js/app.js:92-100 | the payment adds the yield and its coin bonus, and the wear touches neither fuel nor the tank |
| Effects.HarvestExample | js/app.js:89-97 | metal in galaxy 1 with a level-1 laser yields 9 metal and 1 coin, and the next harvest waits 1000 ms |
| Effects.RefundOnce | js/app.js:102-105 | fuel changes in a harvest only when it completes the region, and a completed region cannot be harvested again |
| Effects.UnlockEffect | js/app.js:117-122 | unlocking starts the clock only on a flagged, unrevealed region not yet started, and does nothing otherwise |
| Effects.FinishEffect | js/app.js:124-133 | the reveal records the rolled artefact, hands it to the player, and adds its item to its category's collection without duplicates; other collections stay |
| Effects.TickRegenerates | js/app.js:263-269 | a frame moves lastTick to now and regenerates the player over the elapsed seconds |
| Effects.RegenerateBackwards | js/app.js:263-269 | over a frame dated before the last one, a colonist's income becomes a loss, and fuel goes negative once the drain exceeds the fuel held |
| Effects.RegenerateFormula | js/app.js:268-269 | over dt seconds with c colonised galaxies: dt * c * 0.5 coins and (fuelRegenBase + 0.02 * c) * dt fuel up to the tank, and nothing else |
| Effects.TickReveals | js/app.js:271-279 | a frame reveals the selected region's artefact only once its unlock has run its course, otherwise galaxy, artefacts and collections stay; the selection becomes the id of the region resolved |
| Effects.TickSettlesSelection | js/app.js:45-49 | after a frame the selection is the selected id when the current planet has such a region and the planet's first region otherwise, and a second frame resolves it to the same region |
| Effects.TickKeepsIds | js/app.js:262-279 | a frame keeps every planet's and every region's id in place |
| Effects.PlanetIndexByIds | js/app.js:24-26 | among planets with the same ids, the lookup finds the same planet |
| Effects.RegionIndexOfResolved | js/app.js:47-49 | looking up the id of the region found finds that region again |
| Effects.AdvancedTransitive | js/app.js:60-281 | "further on" composes over successive actions |
| Effects.ReplaceAdvances | js/app.js:60-133 | replacing one region by one further on advances the galaxy |
| Effects.TravelAdvances | js/app.js:60-79 | travel only moves regions further on |
| Effects.HarvestAdvances | js/app.js:81-108 | harvest never lowers progress, never un-harvests, and keeps revealed artefacts |
| Effects.UnlockAdvances | js/app.js:117-122 | unlocking only moves regions further on |
| Effects.TickAdvances | js/app.js:262-275 | a frame never changes a revealed artefact |
| Effects.ApplyAdvances | js/app.js:60-281 | every action but the jump only moves regions further on |
| Effects.SelectPlanetEffect | js/app.js:135-140 | selecting a planet makes it current and counts exactly one more visit; only the market changes besides |
| Effects.EntryFacts | js/app.js:148-158 | the journal entry: completion in [0, 100] and 100 exactly when all regions are harvested; colonised exactly when complete with every flagged region revealed; rarity counts adding up to the artefacts held; total extracted the stock's sum |
| Effects.JumpEffect | js/app.js:147-166 | the jump appends exactly one entry, moves to the next index, lands on the first region of the first planet, and keeps the player and collections |
| Effects.GeneratedJumpEffect | js/app.js:160-161 | the jump lands in the galaxy generateGalaxy builds for the next index: unvisited, started now, a planet count in its difficulty range, fresh planets and 3 to 5 flagged regions; the galaxy left is the journal's new last entry |
| Effects.UpgradeEffect | js/app.js:179-193 | an upgrade costs 80 per level, 90 or 70 and is refused without the coins; once paid only that module changes, and the durability upgrade leaves it full |
| Effects.BuyEffect | js/app.js:219-249 | each purchase's cost and refusal, and what it buys: full tank, tank +12 and full, multiplier -0.08 down to 0.6, bonus +0.05 and discount -0.05 down to 0.75, scanner +1 up to 2; the reopened market is unchanged except after a paid market deal, whose prices are the same multipliers priced with the raised bonus |
| Effects.MarketDealRaisesPrices | js/app.js:238-248 | a paid market deal lowers no price |
| Effects.SellArtefactEffect | js/app.js:204-207 | the oldest artefact is sold at its rarity's price; a no-op with none held |
| Effects.SellResourceEffect | js/app.js:209-212 | the whole stock of the resource is sold at its price and nothing else changes; a no-op with none in stock |
| App.Game.constructor | js/app.js:309-316 | the new game is the starting state in the galaxy generated for index 1, and satisfies the invariant |
| App.Game.ApplyDecay | js/app.js:32-39 | the in-place wear computes `GameState.ApplyDecay` |
| App.Game.TravelSelected | js/app.js:60-79 | travelSelected computes `GameState.Travel` and keeps `Valid()` |
| App.Game.Go | js/app.js:69-77 | the travel body once both guards pass computes `TravelOn` |
| App.Game.Harvest | js/app.js:81-108 | harvest computes `GameState.Harvest` and keeps `Valid()` |
| App.Game.Reap | js/app.js:88-106 | the harvest body once its guards pass computes `HarvestOn` |
| App.Game.UnlockArtefact | js/app.js:117-122 | unlockArtefact computes `GameState.UnlockArtefact` and keeps `Valid()` |
| App.Game.FinishArtefact | js/app.js:124-133 | finishArtefact computes `GameState.FinishArtefact` |
| App.Game.CountColonised | js/app.js:267 | the filter's count equals `ColonisedCount` of the journal |
| App.Game.Tick | js/app.js:262-279 | one frame computes `GameState.Tick` (income, fuel, the reveal, and updateHUD's rewrite of the selection) and keeps `Valid()` |
| App.Game.Regenerate | js/app.js:263-269 | the head of the frame sets lastTick and regenerates the player |
| App.Game.SelectPlanet | js/app.js:135-140 | selectPlanet computes `GameState.SelectPlanet` and keeps `Valid()` |
| App.Game.SelectRegion | js/app.js:318-324 | a canvas hit selects the region and keeps `Valid()` |
| App.Game.SumGalaxyPct | js/app.js:143 | the double reduce equals the galaxy's summed percentage |
| App.Game.JournalEntryFor | js/app.js:148-158 | the entry built equals `Entry` of the state |
| App.Game.JumpGalaxy | js/app.js:147-166 | jumpGalaxy lands in the galaxy generated for the next index, computes `GameState.JumpGalaxy` and keeps `Valid()` |
| App.Game.Depart | js/app.js:152-163 | records the entry, then lands in the generated galaxy |
| App.Game.Land | js/app.js:160-163 | the new index, its generated galaxy, and its first planet and region |
| App.Game.Reprice | js/app.js:164 | the market is recomputed with the player's sell bonus |
| App.Game.UpgradeModule | js/app.js:179-193 | the upgrade handler computes `GameState.UpgradeModule` and keeps `Valid()` |
| App.Game.OpenMarket | js/app.js:197-199 | openMarket reprices the quote on display with the current bonus (`GameState.OpenMarket`), and in a valid game leaves the whole state as it was |
| App.Game.Buy | js/app.js:219-249 | the buy handler, ending with `openMarket()` whether or not the purchase went through, computes `GameState.Buy` and keeps `Valid()` |
| App.Game.SellArtefact | js/app.js:204-215 | the artefact sale, then `openMarket()`, computes `GameState.SellArtefact` and keeps `Valid()` |
| App.Game.SellResource | js/app.js:209-215 | the resource sale, then `openMarket()`, computes `GameState.SellResource` and keeps `Valid()` |

## Left out

- The seeded generator (`hashStringToSeed`, `mulberry32` in `js/rng.js`) is not part of this model. Every stream of draws is a parameter. Consequences:
  - Determinism is proved in the form "the same draws give the same result".
  - The claim that a new galaxy's seed differs from the last one is not modelled.
  - Which seed and tag feed each stream (`gameRng`, the market's visit count) is not modelled either.
  - The market's stream depends only on the galaxy seed and visit count. Only `init`, `selectPlanet` and `jumpGalaxy` change those, and each draws a new stream and prices the market from it. Every other `openMarket()` reuses the stream of the market on display, and the model writes it as repricing that quote (`GameState.RepricedIsComputeMarket`).
- Gen.Generate: the galaxy's `seed` is taken as given rather than hashed from `baseSeed:index`.
- `Date.now()` is the parameter `now`, and `loop`'s frame is one call with the current time.
- StateFacts.ReachableOk, StateFacts.RunKeepsInv and StateFacts.TickKeepsSolvent: solvency is proved only for frames in time order. `loop` does not guard against a clock that goes back. Such a frame has a negative dt, and in the source it can make coins and fuel negative (`Effects.RegenerateBackwards`).
- Floating point is modelled as exact reals. JavaScript rounding errors are not modelled, for example in `0.7 + u * 1.1` or in accumulating `harvestedPct`.
- UI, rendering and the canvas are not modelled: the drawing part of `updateHUD`, `openModal`, `renderer`, `showView`, the footer and the service worker. The hit test is represented only by the region id it yields (`SelectRegion`).
- `updateHUD`'s rewrite of `selectedRegionId` is modelled as the last step of each frame (`GameState.Tick`). Between frames, an action reads the id as the last click or frame left it, and resolves it with the same fallback lookup (`RegionIndex`) as the source's `getRegion`.
- `selectedRegionId` is set by `init` (js/app.js:315) and never becomes `null` again, so the `|| currentRegionId` fallback of lines 48 and 271 is not modelled.
- Persistence is not modelled: `autoSave`, `saveState`, `loadState`, `resetState`. Nothing in the core depends on it.
- Loading the data tables with `fetch` is not modelled. The built-in fallback tables are used, so yields, wait times and item pools are the ones in `js/app.js`.
- Names, labels, `galaxyId`, `expectedArtefactCount`, `baseValue`, `setBonusXp`, `setSellBonus`, `claimedSetRewards`, `chapter1`, `settings` and `runtime.lastSave` are left out. The core's rules never read them.
- Ids are structured values: planet `planet-n` is the number n, and region `Pp-Ri` is `RegionId(p, i)`. A revealed artefact is kept as the artefact itself rather than the string `category:item`.
- Gen.Generate, Gen.AllowedSizes and the other generation members require `index >= 1`. The game only generates from galaxy 1 upwards. With index 0, `Math.floor((index - 1) / 12)` is negative, the size list would be empty, and `pick` would fail.
- GameState.MarketFor and every action that reprices require a market stream of at least 8 draws. The stream has no end in the game.
- App.Game.constructor takes the first galaxy as built by `Generate` (`GameState.Initial` links the two) rather than calling the generator.
- Galaxies and regions are updated by copying the record and writing it back, where the source mutates shared objects in place. Nothing else holds those objects, so no aliasing is lost.
- App.Game.JumpGalaxy computes the journal entry before any field changes, as the source does, but records the new galaxy through `Depart` and `Reprice`.
- Only the upgrade kinds the buttons offer are modelled. An unknown `data-upg` string charges 70 coins and changes nothing; it is not modelled.
