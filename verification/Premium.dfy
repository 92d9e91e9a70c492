/** DrawPremium of gacha/draw.go: rate tiers, featured items, guarantee slots. Every random number is an
    arbitrary choice in its range; the predicates say which outcomes can come out. */
module Premium {
  import opened Store
  import opened Weighted
  import opened Rates

  /** A pool row and a drawn item. */
  datatype Item = Item(kind: int, id: int, rarity: int, character: int)

  datatype Pool = Pool(costumes: map<int, seq<Item>>, weapons: map<int, seq<Item>>, featured: seq<Item>)

  const FEATURED_PERCENT := 35
  const FEATURED_DENOM := 100

  // ---- What can come out ----

  function Phantom(rarity: int): Item {
    Item(WEAPON, 0, rarity, 0)
  }

  /** The pool of the rarity, or of the fallback rarity when that is empty. */
  function PoolAt(items: map<int, seq<Item>>, rarity: int, fallback: int): seq<Item> {
    if GetOr(items, rarity, []) != [] then items[rarity] else GetOr(items, fallback, [])
  }

  ghost predicate CanPick(pool: Pool, kind: int, rarity: int, item: Item) {
    var items := if kind == COSTUME then PoolAt(pool.costumes, rarity, SSRARE) else PoolAt(pool.weapons, rarity, RARE);
    if items == [] then item == Phantom(rarity)
    else if kind == COSTUME then item in items
    else exists row :: row in items && item == row.(character := 0)
  }

  ghost predicate CanFeature(pool: Pool, tier: Tier, item: Item) {
    item in pool.featured && item.kind == tier.kind && item.rarity == tier.rarity
  }

  /** A tier's draw: one of the banner's featured rows of that kind and rarity, or one from the pool. */
  ghost predicate CanDrawTier(pool: Pool, tier: Tier, item: Item) {
    CanFeature(pool, tier, item) || CanPick(pool, tier.kind, tier.rarity, item)
  }

  /** A draw from the table: from a tier that has weight. */
  ghost predicate CanRoll(pool: Pool, rates: seq<Tier>, item: Item) {
    exists tier :: tier in rates && tier.weight > 0 && CanDrawTier(pool, tier, item)
  }

  function AtLeast(rates: seq<Tier>, min: int): seq<Tier> {
    if rates == [] then []
    else
      var n := |rates| - 1;
      AtLeast(rates[..n], min) + if rates[n].rarity >= min then [rates[n]] else []
  }

  ghost predicate CanReroll(pool: Pool, rates: seq<Tier>, min: int, item: Item) {
    if Sum(AtLeast(rates, min)) == 0 then CanPick(pool, WEAPON, min, item) else CanRoll(pool, AtLeast(rates, min), item)
  }

  /** One slot: in a guarantee slot a draw below the minimum is drawn again. */
  ghost predicate CanFill(pool: Pool, rates: seq<Tier>, guaranteed: bool, min: int, item: Item) {
    exists first :: CanRoll(pool, rates, first) &&
      if guaranteed && first.rarity < min then CanReroll(pool, rates, min, item) else item == first
  }

  /** The last fixedCount slots are guarantee slots. */
  predicate Guaranteed(i: int, count: int, fixedCount: int) {
    fixedCount > 0 && i >= count - fixedCount
  }

  ghost predicate CanDraw(pool: Pool, rates: seq<Tier>, count: nat, min: int, fixedCount: int, items: seq<Item>) {
    |items| == count && forall i :: 0 <= i < count ==> CanFill(pool, rates, Guaranteed(i, count, fixedCount), min, items[i])
  }

  predicate Weighable(rates: seq<Tier>) {
    forall t :: t in rates ==> t.weight >= 0
  }

  function Weights(rates: seq<Tier>): seq<nat>
    requires Weighable(rates)
  {
    seq(|rates|, i requires 0 <= i < |rates| => rates[i].weight)
  }

  lemma {:induction false} WeightsSum(rates: seq<Tier>, n: nat)
    requires Weighable(rates) && n <= |rates|
    ensures Offset(Weights(rates), n) == Sum(rates[..n])
  {
    if n > 0 {
      WeightsSum(rates, n - 1);
      assert rates[..n][..n - 1] == rates[..n - 1];
    }
  }

  // ---- The draw ----

  method Choose(items: seq<Item>) returns (item: Item)
    requires items != []
    ensures item in items
  {
    var i :| 0 <= i < |items|;
    item := items[i];
  }

  method PickFromPool(pool: Pool, kind: int, rarity: int) returns (item: Item)
    ensures CanPick(pool, kind, rarity, item)
  {
    if kind == COSTUME {
      var items := GetOr(pool.costumes, rarity, []);
      if |items| == 0 {
        items := GetOr(pool.costumes, SSRARE, []);
      }
      if |items| == 0 {
        return Item(WEAPON, 0, rarity, 0);
      }
      item := Choose(items);
      return;
    }
    var items := GetOr(pool.weapons, rarity, []);
    if |items| == 0 {
      items := GetOr(pool.weapons, RARE, []);
    }
    if |items| == 0 {
      return Item(WEAPON, 0, rarity, 0);
    }
    var pick := Choose(items);
    item := Item(pick.kind, pick.id, pick.rarity, 0);
  }

  /** The roll of 0 to 99 decides, if the banner features a row of the tier at all: 35 of the 100 take it. */
  method TryFeaturedRateUp(pool: Pool, tier: Tier, roll: nat) returns (item: Item, ok: bool)
    requires roll < 100
    ensures ok <==> roll < 35 && exists f :: CanFeature(pool, tier, f)
    ensures if ok then CanFeature(pool, tier, item) else item == Item(0, 0, 0, 0)
  {
    var matches: seq<Item> := [];
    for i := 0 to |pool.featured|
      invariant forall f :: f in matches ==> CanFeature(pool, tier, f)
      invariant forall k :: 0 <= k < i && CanFeature(pool, tier, pool.featured[k]) ==> pool.featured[k] in matches
    {
      var f := pool.featured[i];
      if f.kind == tier.kind && f.rarity == tier.rarity {
        matches := matches + [f];
      }
    }
    item := Item(0, 0, 0, 0);
    if |matches| == 0 {
      return item, false;
    }
    assert CanFeature(pool, tier, matches[0]);
    if roll >= FEATURED_PERCENT {
      return item, false;
    }
    item := Choose(matches);
    ok := true;
  }

  method RollOne(pool: Pool, rates: seq<Tier>, totalWeight: int) returns (item: Item)
    requires Weighable(rates) && totalWeight == Sum(rates) > 0
    ensures CanRoll(pool, rates, item)
  {
    WeightsSum(rates, |rates|);
    assert rates[..|rates|] == rates;
    var roll: nat :| roll < totalWeight;
    var row := PickCumulative(Weights(rates), roll);
    var tier := rates[row];
    assert tier.weight > 0;
    var rateUp: nat :| rateUp < FEATURED_DENOM;
    var featured, ok := TryFeaturedRateUp(pool, tier, rateUp);
    if ok {
      assert CanDrawTier(pool, tier, featured);
      return featured;
    }
    item := PickFromPool(pool, tier.kind, tier.rarity);
    assert CanDrawTier(pool, tier, item);
  }

  method RollAtMinRarity(pool: Pool, rates: seq<Tier>, min: int) returns (item: Item)
    requires Weighable(rates)
    ensures CanReroll(pool, rates, min, item)
  {
    var filtered, filteredTotal: int := [], 0;
    for i := 0 to |rates|
      invariant filtered == AtLeast(rates[..i], min) && filteredTotal == Sum(filtered)
      invariant Weighable(filtered)
    {
      assert rates[..i + 1][..i] == rates[..i];
      var r := rates[i];
      if r.rarity >= min {
        assert (filtered + [r])[..|filtered|] == filtered;
        filtered := filtered + [r];
        filteredTotal := filteredTotal + r.weight;
      }
    }
    assert rates[..|rates|] == rates;
    SumNotNegative(filtered);
    if filteredTotal == 0 {
      item := PickFromPool(pool, WEAPON, min);
      return;
    }
    item := RollOne(pool, filtered, filteredTotal);
  }

  lemma {:induction false} SumNotNegative(rates: seq<Tier>)
    requires Weighable(rates)
    ensures Sum(rates) >= 0
    ensures forall t :: t in rates && t.weight > 0 ==> Sum(rates) > 0
    ensures Sum(rates) > 0 ==> exists t :: t in rates && t.weight > 0
  {
    if rates != [] {
      var n := |rates| - 1;
      SumNotNegative(rates[..n]);
      assert rates == rates[..n] + [rates[n]];
    }
  }

  /** rand.Intn panics on a table without weight. */
  method DrawPremium(pool: Pool, base: array<Tier>, count: nat, min: int, fixedCount: int, multiplier: real)
    returns (result: seq<Item>)
    requires Weighable(Adjusted(base[..], multiplier))
    requires count > 0 ==> Sum(Adjusted(base[..], multiplier)) > 0
    ensures CanDraw(pool, Adjusted(base[..], multiplier), count, min, fixedCount, result)
  {
    result := [];
    var adjusted := AdjustRates(base, multiplier);
    var rates := adjusted[..];
    var totalWeight := 0;
    for i := 0 to |rates|
      invariant totalWeight == Sum(rates[..i])
    {
      assert rates[..i + 1][..i] == rates[..i];
      totalWeight := totalWeight + rates[i].weight;
    }
    assert rates[..|rates|] == rates;
    for i := 0 to count
      invariant |result| == i
      invariant forall k :: 0 <= k < i ==> CanFill(pool, rates, Guaranteed(k, count, fixedCount), min, result[k])
    {
      var isGuaranteeSlot := fixedCount > 0 && i >= count - fixedCount;
      var item := RollOne(pool, rates, totalWeight);
      if isGuaranteeSlot && item.rarity < min {
        item := RollAtMinRarity(pool, rates, min);
      }
      result := result + [item];
    }
  }

  // ---- Guarantee slots ----

  /** Pool rows are filed under their own rarity. */
  ghost predicate Filed(pool: Pool) {
    && (forall r, row :: row in GetOr(pool.costumes, r, []) ==> row.rarity == r)
    && (forall r, row :: row in GetOr(pool.weapons, r, []) ==> row.rarity == r)
  }

  /** The tiers a guarantee slot draws again from; the weapon pool of the minimum when none has weight. */
  ghost predicate Rerolls(rates: seq<Tier>, min: int, kind: int, rarity: int) {
    if Sum(AtLeast(rates, min)) == 0 then kind == WEAPON && rarity == min
    else exists t :: t in rates && t.weight > 0 && t.rarity >= min && t.kind == kind && t.rarity == rarity
  }

  /** The pool of this kind and rarity is empty, and its stand-in holds rows below the minimum. */
  predicate FallsBelow(pool: Pool, min: int, kind: int, rarity: int) {
    if kind == COSTUME
    then GetOr(pool.costumes, rarity, []) == [] && GetOr(pool.costumes, SSRARE, []) != [] && SSRARE < min
    else GetOr(pool.weapons, rarity, []) == [] && GetOr(pool.weapons, RARE, []) != [] && RARE < min
  }

  lemma {:induction false} AtLeastFilters(rates: seq<Tier>, min: int)
    ensures forall t :: t in AtLeast(rates, min) <==> t in rates && t.rarity >= min
  {
    if rates != [] {
      AtLeastFilters(rates[..|rates| - 1], min);
      assert rates == rates[..|rates| - 1] + [rates[|rates| - 1]];
    }
  }

  /** A pick at or above the minimum rarity comes out below it only through the stand-in pool. */
  lemma PickBelow(pool: Pool, kind: int, rarity: int, min: int)
    requires Filed(pool) && rarity >= min
    ensures (exists item :: CanPick(pool, kind, rarity, item) && item.rarity < min) <==> FallsBelow(pool, min, kind, rarity)
  {
    if FallsBelow(pool, min, kind, rarity) {
      var items := if kind == COSTUME then PoolAt(pool.costumes, rarity, SSRARE) else PoolAt(pool.weapons, rarity, RARE);
      var row := items[0];
      var item := if kind == COSTUME then row else row.(character := 0);
      assert row in items;
      assert CanPick(pool, kind, rarity, item);
    }
  }

  /** With rows of the lowest rarity on sale, some ordinary draw is below any higher minimum. */
  lemma SomeDrawIsLow(pool: Pool, rates: seq<Tier>, min: int, tier: Tier)
    requires Filed(pool) && RARE < min
    requires tier in rates && tier.weight > 0 && tier.kind == WEAPON && tier.rarity == RARE
    ensures exists item :: CanRoll(pool, rates, item) && item.rarity < min
  {
    var items := PoolAt(pool.weapons, RARE, RARE);
    var item := if items == [] then Phantom(RARE) else items[0].(character := 0);
    if items != [] {
      assert items[0] in items;
    }
    assert CanPick(pool, WEAPON, RARE, item);
    assert CanDrawTier(pool, tier, item);
  }

  /** A second draw comes out below the minimum exactly when some pool it may draw from falls back below it. */
  lemma RerollBelow(pool: Pool, rates: seq<Tier>, min: int)
    requires Filed(pool) && Weighable(rates)
    ensures (exists item :: CanReroll(pool, rates, min, item) && item.rarity < min)
       <==> exists kind, rarity :: Rerolls(rates, min, kind, rarity) && FallsBelow(pool, min, kind, rarity)
  {
    var high := AtLeast(rates, min);
    AtLeastFilters(rates, min);
    if Sum(high) == 0 {
      PickBelow(pool, WEAPON, min, min);
      assert Rerolls(rates, min, WEAPON, min);
    } else {
      if item :| CanReroll(pool, rates, min, item) && item.rarity < min {
        var t :| t in high && t.weight > 0 && CanDrawTier(pool, t, item);
        PickBelow(pool, t.kind, t.rarity, min);
        assert Rerolls(rates, min, t.kind, t.rarity);
      }
      if kind, rarity :| Rerolls(rates, min, kind, rarity) && FallsBelow(pool, min, kind, rarity) {
        var t :| t in rates && t.weight > 0 && t.rarity >= min && t.kind == kind && t.rarity == rarity;
        PickBelow(pool, kind, rarity, min);
        var item :| CanPick(pool, kind, rarity, item) && item.rarity < min;
        assert CanDrawTier(pool, t, item);
        assert CanRoll(pool, high, item);
      }
    }
  }

  ghost predicate FallsShort(pool: Pool, rates: seq<Tier>, min: int) {
    exists kind, rarity :: Rerolls(rates, min, kind, rarity) && FallsBelow(pool, min, kind, rarity)
  }

  /** A guarantee slot can come out below the minimum exactly when some pool it draws again from is empty
      and falls back below the minimum. The rates hold the table's weapon tier of the lowest rarity. */
  lemma GuaranteeExactly(pool: Pool, rates: seq<Tier>, min: int, lowest: Tier)
    requires Filed(pool) && Weighable(rates)
    requires lowest in rates && lowest.weight > 0 && lowest.kind == WEAPON && lowest.rarity == RARE
    ensures (exists item :: CanFill(pool, rates, true, min, item) && item.rarity < min) <==> FallsShort(pool, rates, min)
  {
    RerollBelow(pool, rates, min);
    if item :| CanFill(pool, rates, true, min, item) && item.rarity < min {
      assert CanReroll(pool, rates, min, item);
    }
    if FallsShort(pool, rates, min) {
      var item :| CanReroll(pool, rates, min, item) && item.rarity < min;
      assert RARE < min;
      SomeDrawIsLow(pool, rates, min, lowest);
      var first :| CanRoll(pool, rates, first) && first.rarity < min;
      assert CanFill(pool, rates, true, min, item);
    }
  }

  /** So every draw returns exactly count items and keeps its guarantee, for all random outcomes. */
  lemma GuaranteeKept(pool: Pool, rates: seq<Tier>, count: nat, min: int, fixedCount: int, items: seq<Item>)
    requires Filed(pool) && Weighable(rates) && !FallsShort(pool, rates, min)
    requires CanDraw(pool, rates, count, min, fixedCount, items)
    ensures |items| == count
    ensures forall i :: 0 <= i < count && i >= count - fixedCount ==> items[i].rarity >= min
  {
    RerollBelow(pool, rates, min);
    forall i | 0 <= i < count && i >= count - fixedCount ensures items[i].rarity >= min {
      assert CanFill(pool, rates, Guaranteed(i, count, fixedCount), min, items[i]);
      var first :| CanRoll(pool, rates, first) &&
        if first.rarity < min then CanReroll(pool, rates, min, items[i]) else items[i] == first;
    }
  }

  /** The premium table's kinds and rarities, each with some weight. */
  predicate PremiumShaped(rates: seq<Tier>) {
    && |rates| == 5 && Positive(rates)
    && forall i :: 0 <= i < 5 ==> rates[i].kind == PREMIUM[i].kind && rates[i].rarity == PREMIUM[i].rarity
  }

  lemma PremiumKeepsShape(m: real)
    requires m >= 1.0
    ensures PremiumShaped(Adjusted(PREMIUM, m))
  {
    hide Adjusted;
    BoostByTier(PREMIUM, m, 0);
    forall i | 0 <= i < 5
      ensures Adjusted(PREMIUM, m)[i].kind == PREMIUM[i].kind && Adjusted(PREMIUM, m)[i].rarity == PREMIUM[i].rarity
    {
      BoostByTier(PREMIUM, m, i);
    }
  }

  /** Which weapon pools a premium guarantee slot may draw from again. */
  lemma PremiumRerolls(rates: seq<Tier>, min: int)
    requires PremiumShaped(rates) && RARE < min <= SSRARE
    ensures forall rarity :: Rerolls(rates, min, WEAPON, rarity) <==> rarity == SSRARE || (rarity == SRARE && min <= SRARE)
    ensures forall kind, rarity :: Rerolls(rates, min, kind, rarity) ==> kind == COSTUME || kind == WEAPON
  {
    hide AtLeast;
    AtLeastFilters(rates, min);
    assert rates[1] in AtLeast(rates, min);
    SumNotNegative(AtLeast(rates, min));
    assert rates[3] in rates;
  }

  /** On the premium table, boosted or not, a minimum above the lowest rarity is missed exactly when lowest-rarity
      weapons are on sale and there is no weapon of a rarity the table has at or above the minimum. */
  lemma PremiumGuarantee(pool: Pool, m: real, min: int)
    requires Filed(pool) && m >= 1.0 && RARE < min <= SSRARE
    ensures (exists item :: CanFill(pool, Adjusted(PREMIUM, m), true, min, item) && item.rarity < min)
       <==> && GetOr(pool.weapons, RARE, []) != []
            && (GetOr(pool.weapons, SSRARE, []) == [] || (min <= SRARE && GetOr(pool.weapons, SRARE, []) == []))
  {
    hide Adjusted, CanFill, Rerolls;
    var rates := Adjusted(PREMIUM, m);
    PremiumKeepsShape(m);
    assert rates[4] in rates;
    GuaranteeExactly(pool, rates, min, rates[4]);
    PremiumRerolls(rates, min);
    assert Rerolls(rates, min, WEAPON, SSRARE);
    assert Rerolls(rates, min, WEAPON, SRARE) <==> min <= SRARE;
  }

  // ---- A slot, in figures ----

  /** A pick: a costume keeps its row, a weapon its row without the character. An empty pool is replaced by that of
      rarity 40 for costumes and 20 for weapons, and when that is empty too by a weapon without an id. */
  lemma PicksAre(pool: Pool, rarity: int, item: Item)
    ensures var rows := GetOr(pool.costumes, rarity, []);
            CanPick(pool, 1, rarity, item) <==>
            if rows != [] then item in rows
            else if GetOr(pool.costumes, 40, []) != [] then item in GetOr(pool.costumes, 40, [])
            else item == Item(2, 0, rarity, 0)
    ensures var rows := GetOr(pool.weapons, rarity, []);
            CanPick(pool, 2, rarity, item) <==>
            if rows != [] then exists w :: w in rows && item == Item(w.kind, w.id, w.rarity, 0)
            else if GetOr(pool.weapons, 20, []) != [] then exists w :: w in GetOr(pool.weapons, 20, []) && item == Item(w.kind, w.id, w.rarity, 0)
            else item == Item(2, 0, rarity, 0)
  {
    var weapons := PoolAt(pool.weapons, rarity, RARE);
    assert forall w: Item :: w.(character := 0) == Item(w.kind, w.id, w.rarity, 0);
    if item' :| item' in weapons && item == item'.(character := 0) {
      assert item == Item(item'.kind, item'.id, item'.rarity, 0);
    }
    if item' :| item' in weapons && item == Item(item'.kind, item'.id, item'.rarity, 0) {
      assert item == item'.(character := 0);
    }
  }

  /** An ordinary slot: a tier with weight, then a featured row of its kind and rarity or a pick from its pool. */
  lemma OrdinarySlots(pool: Pool, rates: seq<Tier>, min: int, item: Item)
    ensures CanFill(pool, rates, false, min, item) <==>
            exists tier :: tier in rates && tier.weight > 0 &&
              ((item in pool.featured && item.kind == tier.kind && item.rarity == tier.rarity)
               || CanPick(pool, tier.kind, tier.rarity, item))
  {
    hide CanPick;
    assert forall tier :: CanDrawTier(pool, tier, item) <==>
      (item in pool.featured && item.kind == tier.kind && item.rarity == tier.rarity) || CanPick(pool, tier.kind, tier.rarity, item);
    assert CanFill(pool, rates, false, min, item) <==> CanRoll(pool, rates, item);
  }

  /** A guarantee slot, one of the last fixedCount: an ordinary draw that reaches the minimum, or, after one that does
      not, a draw among the tiers that do, or from the weapon pool of the minimum when none of those has weight. */
  lemma GuaranteeSlots(pool: Pool, rates: seq<Tier>, min: int, item: Item)
    requires Weighable(rates)
    ensures CanFill(pool, rates, true, min, item) <==>
            || (CanRoll(pool, rates, item) && item.rarity >= min)
            || ((exists first :: CanRoll(pool, rates, first) && first.rarity < min)
                && if exists t :: t in rates && t.rarity >= min && t.weight > 0
                   then exists t :: t in rates && t.rarity >= min && t.weight > 0 && CanDrawTier(pool, t, item)
                   else CanPick(pool, WEAPON, min, item))
  {
    hide CanDrawTier, CanPick;
    var high := AtLeast(rates, min);
    AtLeastFilters(rates, min);
    SumNotNegative(high);
    if t :| t in rates && t.rarity >= min && t.weight > 0 {
      assert t in high;
    }
    assert (exists t :: t in rates && t.rarity >= min && t.weight > 0) <==> Sum(high) > 0;
    assert CanRoll(pool, high, item) <==> exists t :: t in rates && t.rarity >= min && t.weight > 0 && CanDrawTier(pool, t, item);
    hide CanRoll;
  }
}
