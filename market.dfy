/**
 * The galaxy market: six price multipliers drawn from the market stream of the
 * current visit, an occasional "insane" x3 boost on one of them, and prices
 * rounded from the base prices; plus the closed-form emergency recovery cost.
 *
 * The market stream is keyed by the galaxy seed and its planet-visit count, so
 * the same galaxy at the same visit count always yields the same stream; the
 * model takes that stream as an argument.
 */
module Market {
  import opened Rng
  import opened Gen

  /** The keys of the price table: the three resources and the three artefact rarities. */
  datatype PriceKey = ResourceKey(resource: Resource) | ArtefactKey(rarity: Rarity)

  /** The order in which multipliers are drawn, which is also the order `pick` chooses from. */
  const Keys: seq<PriceKey> := [
    ResourceKey(Metal), ResourceKey(Energy), ResourceKey(Organic),
    ArtefactKey(Common), ArtefactKey(Rare), ArtefactKey(Ultra)
  ]

  /** Position of a key in `Keys`, i.e. which draw of the stream sets its multiplier. */
  function KeyIndex(k: PriceKey): (i: nat)
    ensures i < |Keys| && Keys[i] == k
  {
    match k
    case ResourceKey(Metal) => 0
    case ResourceKey(Energy) => 1
    case ResourceKey(Organic) => 2
    case ArtefactKey(Common) => 3
    case ArtefactKey(Rare) => 4
    case ArtefactKey(Ultra) => 5
  }

  /** The base price of every key. */
  function BasePrice(k: PriceKey): int
  {
    match k
    case ResourceKey(Metal) => 5
    case ResourceKey(Energy) => 6
    case ResourceKey(Organic) => 4
    case ArtefactKey(Common) => 35
    case ArtefactKey(Rare) => 90
    case ArtefactKey(Ultra) => 240
  }

  /** Lowest multiplier of a key before any boost. */
  function Low(k: PriceKey): real
  {
    if k.ResourceKey? then 0.7 else 0.8
  }

  /** Width of the multiplier range of a key. */
  function Spread(k: PriceKey): real
  {
    match k
    case ResourceKey(_) => 1.1
    case ArtefactKey(Common) => 1.2
    case ArtefactKey(Rare) => 1.3
    case ArtefactKey(Ultra) => 1.4
  }

  /** `Math.round`: the nearest integer, halves rounded up. */
  function Round(x: real): int
  {
    (x + 0.5).Floor
  }

  lemma RoundIsNearest(x: real)
    ensures x - 0.5 < Round(x) as real <= x + 0.5
  {
  }

  lemma RoundMonotone(x: real, y: real)
    requires x <= y
    ensures Round(x) <= Round(y)
  {
  }

  /** Every key appears in `Keys`: the price table has exactly these six entries. */
  lemma KeyListed(k: PriceKey)
    ensures k in Keys
  {
    assert Keys[KeyIndex(k)] == k;
  }

  /** A table with an entry for every key. */
  ghost predicate Total<V>(m: map<PriceKey, V>)
  {
    forall k: PriceKey :: k in m
  }

  /** What `computeMarket` returns: the prices, the multipliers and the boosted key, if any. */
  datatype Quote = Quote(prices: map<PriceKey, int>, multipliers: map<PriceKey, real>, insaneBoost: Option<PriceKey>)

  /** The multiplier key k takes from draw u, before any boost. */
  function RawMultiplier(u: Unit, k: PriceKey): real
  {
    Low(k) + u * Spread(k)
  }

  /** The six multiplier draws, one per key in `Keys` order. */
  function DrawMultipliers(s: seq<Unit>): (r: Option<Drawn<map<PriceKey, real>>>)
    ensures r.Some? <==> |s| >= |Keys|
    ensures r.Some? ==> Total(r.value.value) && r.value.rest == s[|Keys|..]
    ensures r.Some? ==> forall k :: r.value.value[k] == RawMultiplier(s[KeyIndex(k)], k)
  {
    if |s| < |Keys| then None
    else
      var mults := map k | k in Keys :: RawMultiplier(s[KeyIndex(k)], k);
      assert forall k :: k in mults && mults[k] == RawMultiplier(s[KeyIndex(k)], k) by {
        forall k: PriceKey ensures k in mults && mults[k] == RawMultiplier(s[KeyIndex(k)], k) {
          KeyListed(k);
        }
      }
      Some(Drawn(mults, s[|Keys|..]))
  }

  /**
   * The boost draw: below 0.12 it picks one key with a further draw and
   * triples that key's multiplier; otherwise nothing changes.
   */
  function DrawBoost(s: seq<Unit>, mults: map<PriceKey, real>): (r: Option<Drawn<(map<PriceKey, real>, Option<PriceKey>)>>)
    requires Total(mults)
    ensures r.Some? <==> |s| >= 1 && (s[0] < 0.12 ==> |s| >= 2)
    ensures r.Some? ==> Total(r.value.value.0)
    ensures r.Some? ==> (r.value.value.1.Some? <==> s[0] < 0.12)
    ensures r.Some? && r.value.value.1.Some? ==>
              r.value.value.1.value == Keys[PickIndex(s[1], |Keys|)] && r.value.rest == s[2..]
    ensures r.Some? && r.value.value.1.None? ==> r.value.rest == s[1..]
    ensures r.Some? ==> forall k ::
              r.value.value.0[k] == (if r.value.value.1 == Some(k) then 3.0 else 1.0) * mults[k]
  {
    var b :- Next(s);
    if b.value < 0.12 then
      var boost :- DrawPick(b.rest, Keys);
      Some(Drawn((mults[boost.value := mults[boost.value] * 3.0], Some(boost.value)), boost.rest))
    else
      Some(Drawn((mults, None), b.rest))
  }

  /** The price of key k: `Math.round(v * multipliers[k] * sellBonus)` for its base price v. */
  function Price(k: PriceKey, mult: real, sellBonus: real): int
  {
    Round(BasePrice(k) as real * mult * sellBonus)
  }

  /** The price table: every key priced from its multiplier. */
  function PricesOf(mults: map<PriceKey, real>, sellBonus: real): (prices: map<PriceKey, int>)
    requires Total(mults)
    ensures Total(prices)
    ensures forall k :: prices[k] == Price(k, mults[k], sellBonus)
  {
    var prices := map k | k in Keys :: Price(k, mults[k], sellBonus);
    assert forall k :: k in prices && prices[k] == Price(k, mults[k], sellBonus) by {
      forall k: PriceKey ensures k in prices && prices[k] == Price(k, mults[k], sellBonus) {
        KeyListed(k);
      }
    }
    prices
  }

  /**
   * `computeMarket(galaxy, sellBonus)` for the market stream `s` of that galaxy
   * and visit count: six multiplier draws in key order, then the boost draw,
   * then, for a boost, the draw that picks the boosted key.
   */
  function ComputeMarket(s: seq<Unit>, sellBonus: real): (r: Option<Drawn<Quote>>)
    ensures r.Some? <==> |s| >= 7 && (s[6] < 0.12 ==> |s| >= 8)
    ensures r.Some? ==> Total(r.value.value.prices) && Total(r.value.value.multipliers)
    ensures r.Some? ==> (r.value.value.insaneBoost.Some? <==> s[6] < 0.12)
    ensures r.Some? ==> r.value.rest == s[if s[6] < 0.12 then 8 else 7..]
  {
    var mults :- DrawMultipliers(s);
    assert |s| >= 7 ==> mults.rest[1..] == s[7..];
    var boost :- DrawBoost(mults.rest, mults.value);
    Some(Drawn(Quote(PricesOf(boost.value.0, sellBonus), boost.value.0, boost.value.1), boost.rest))
  }

  /**
   * The multipliers in terms of the draws: key k takes draw number KeyIndex(k)
   * scaled into its range, tripled exactly when k is the key `pick` chose with
   * draw 8 after draw 7 fell below 0.12.
   */
  lemma MultipliersFromDraws(s: seq<Unit>, sellBonus: real, k: PriceKey)
    requires ComputeMarket(s, sellBonus).Some?
    ensures var q := ComputeMarket(s, sellBonus).value.value;
      && q.multipliers[k] == (if q.insaneBoost == Some(k) then 3.0 else 1.0) * RawMultiplier(s[KeyIndex(k)], k)
      && (q.insaneBoost.Some? ==> q.insaneBoost.value == Keys[PickIndex(s[7], |Keys|)])
  {
    var mults := DrawMultipliers(s).value;
    assert mults.rest[0] == s[6];
    assert |mults.rest| >= 2 ==> mults.rest[1] == s[7];
  }

  /** Before a boost, every multiplier lies in [Low, Low + Spread): [0.7, 1.8) for resources, up to [0.8, 2.2) for ultra. */
  lemma MultiplierRange(s: seq<Unit>, sellBonus: real, k: PriceKey)
    requires ComputeMarket(s, sellBonus).Some?
    ensures var q := ComputeMarket(s, sellBonus).value.value;
      var factor := if q.insaneBoost == Some(k) then 3.0 else 1.0;
      factor * Low(k) <= q.multipliers[k] < factor * (Low(k) + Spread(k))
  {
    MultipliersFromDraws(s, sellBonus, k);
    RawMultiplierRange(s[KeyIndex(k)], k);
  }

  lemma RawMultiplierRange(u: Unit, k: PriceKey)
    ensures Low(k) <= RawMultiplier(u, k) < Low(k) + Spread(k)
  {
    assert 0.0 <= u * Spread(k) < Spread(k);
  }

  /** Only the boosted key changes: every other key keeps its drawn multiplier. */
  lemma BoostIsSingle(s: seq<Unit>, sellBonus: real, k: PriceKey, j: PriceKey)
    requires ComputeMarket(s, sellBonus).Some?
    requires ComputeMarket(s, sellBonus).value.value.insaneBoost == Some(k) && j != k
    ensures ComputeMarket(s, sellBonus).value.value.multipliers[j] == RawMultiplier(s[KeyIndex(j)], j)
  {
    MultipliersFromDraws(s, sellBonus, j);
  }

  /** Each price is the rounding of base * multiplier * sellBonus: within half a coin of it. */
  lemma PriceIsRounded(s: seq<Unit>, sellBonus: real, k: PriceKey)
    requires ComputeMarket(s, sellBonus).Some?
    ensures var q := ComputeMarket(s, sellBonus).value.value;
      var exact := BasePrice(k) as real * q.multipliers[k] * sellBonus;
      exact - 0.5 < q.prices[k] as real <= exact + 0.5
  {
    var q := ComputeMarket(s, sellBonus).value.value;
    assert q.prices[k] == Price(k, q.multipliers[k], sellBonus);
    RoundIsNearest(BasePrice(k) as real * q.multipliers[k] * sellBonus);
  }

  /** The sell bonus affects the prices only: the multipliers, the boost and the draws used are the same. */
  lemma BonusAffectsPricesOnly(s: seq<Unit>, b1: real, b2: real)
    requires ComputeMarket(s, b1).Some?
    ensures ComputeMarket(s, b2).Some?
    ensures var r1, r2 := ComputeMarket(s, b1).value, ComputeMarket(s, b2).value;
      r1.value.multipliers == r2.value.multipliers && r1.value.insaneBoost == r2.value.insaneBoost
      && r1.rest == r2.rest
  {
  }

  lemma PriceMonotone(k: PriceKey, mult: real, b1: real, b2: real)
    requires mult >= 0.0 && 0.0 <= b1 <= b2
    ensures Price(k, mult, b1) <= Price(k, mult, b2)
  {
    var x := BasePrice(k) as real * mult;
    assert x >= 0.0;
    assert x * b1 <= x * b2;
    RoundMonotone(x * b1, x * b2);
  }

  /** With a non-negative bonus no price is negative, so a sale never costs coins. */
  lemma PricesNonNegative(s: seq<Unit>, sellBonus: real, k: PriceKey)
    requires sellBonus >= 0.0 && ComputeMarket(s, sellBonus).Some?
    ensures ComputeMarket(s, sellBonus).value.value.prices[k] >= 0
  {
    var q := ComputeMarket(s, sellBonus).value.value;
    MultiplierRange(s, sellBonus, k);
    PriceMonotone(k, q.multipliers[k], 0.0, sellBonus);
  }

  /** A larger sell bonus never lowers a price. */
  lemma PriceMonotoneInBonus(s: seq<Unit>, b1: real, b2: real, k: PriceKey)
    requires 0.0 <= b1 <= b2
    requires ComputeMarket(s, b1).Some?
    ensures ComputeMarket(s, b2).Some?
    ensures ComputeMarket(s, b1).value.value.prices[k] <= ComputeMarket(s, b2).value.value.prices[k]
  {
    var q1, q2 := ComputeMarket(s, b1).value.value, ComputeMarket(s, b2).value.value;
    BonusAffectsPricesOnly(s, b1, b2);
    MultiplierRange(s, b1, k);
    assert q1.prices[k] == Price(k, q1.multipliers[k], b1);
    assert q2.prices[k] == Price(k, q1.multipliers[k], b2);
    PriceMonotone(k, q1.multipliers[k], b1, b2);
  }

  lemma DrawMultipliersExtends(s: seq<Unit>, t: seq<Unit>)
    requires DrawMultipliers(s).Some?
    ensures DrawMultipliers(s + t) == Some(Drawn(DrawMultipliers(s).value.value, DrawMultipliers(s).value.rest + t))
  {
    var m1, m2 := DrawMultipliers(s).value, DrawMultipliers(s + t).value;
    assert forall k :: m1.value[k] == m2.value[k];
    assert m1.value == m2.value;
    assert m2.rest == m1.rest + t;
  }

  lemma DrawBoostExtends(s: seq<Unit>, t: seq<Unit>, mults: map<PriceKey, real>)
    requires Total(mults) && DrawBoost(s, mults).Some?
    ensures DrawBoost(s + t, mults) == Some(Drawn(DrawBoost(s, mults).value.value, DrawBoost(s, mults).value.rest + t))
  {
    NextExtends(s, t);
    if s[0] < 0.12 {
      NextExtends(s[1..], t);
    }
  }

  /** The market depends on the stream alone: extra draws after the ones it uses change nothing. */
  lemma ComputeMarketExtends(s: seq<Unit>, t: seq<Unit>, sellBonus: real)
    requires ComputeMarket(s, sellBonus).Some?
    ensures var r := ComputeMarket(s, sellBonus).value;
      ComputeMarket(s + t, sellBonus) == Some(Drawn(r.value, r.rest + t))
  {
    var m := DrawMultipliers(s).value;
    DrawMultipliersExtends(s, t);
    DrawBoostExtends(m.rest, t, m.value);
  }

  /** `emergencyRecoveryCost(player)`: round((90 + 4 * maxFuel) * emergencyDiscount). */
  function EmergencyRecoveryCost(maxFuel: int, emergencyDiscount: real): (cost: int)
    ensures var exact := (90 + 4 * maxFuel) as real * emergencyDiscount;
      exact - 0.5 < cost as real <= exact + 0.5
  {
    RoundIsNearest((90 + 4 * maxFuel) as real * emergencyDiscount);
    Round((90 + 4 * maxFuel) as real * emergencyDiscount)
  }

  /** A bigger tank makes recovery dearer; a smaller discount factor (the upgrades lower it) makes it cheaper. */
  lemma EmergencyRecoveryCostMonotone(f1: int, f2: int, d1: real, d2: real)
    requires f1 <= f2 && 0.0 <= d2 <= d1 && 90 + 4 * f1 >= 0
    ensures EmergencyRecoveryCost(f1, d2) <= EmergencyRecoveryCost(f2, d1)
  {
    var a, b := (90 + 4 * f1) as real, (90 + 4 * f2) as real;
    ScaleMonotone(a, d2, d1);
    ScaleMonotone(d1, a, b);
    RoundMonotone(a * d2, b * d1);
  }

  lemma ScaleMonotone(c: real, x: real, y: real)
    requires 0.0 <= c && x <= y
    ensures c * x <= c * y && x * c <= y * c
  {
    assert c * y - c * x == c * (y - x);
  }
}
