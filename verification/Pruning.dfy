/** Pruning costumes without a weapon out of the gacha pool (masterdata/gacha_pool.go): every rarity's slice is
    filtered in place, over its own backing array. */
module Pruning {
  import opened Wrappers
  import opened Store
  import opened Premium

  function Paired(items: seq<Item>, weaponOf: map<int, int>): seq<Item> {
    if items == [] then []
    else
      var n := |items| - 1;
      Paired(items[..n], weaponOf) + if items[n].id in weaponOf then [items[n]] else []
  }

  lemma {:induction false} PairedFits(items: seq<Item>, weaponOf: map<int, int>)
    ensures |Paired(items, weaponOf)| <= |items|
  {
    if items != [] {
      PairedFits(items[..|items| - 1], weaponOf);
    }
  }

  /** The kept rows are written over the slice from its start; what lies past them is left alone. */
  method FilterInPlace(data: array<Item>, len: nat, weaponOf: map<int, int>) returns (kept: nat)
    requires len <= data.Length
    modifies data
    ensures kept <= len && data[..kept] == Paired(old(data[..len]), weaponOf)
    ensures forall i :: kept <= i < data.Length ==> data[i] == old(data[i])
  {
    kept := 0;
    for i := 0 to len
      invariant kept <= i
      invariant data[..kept] == Paired(old(data[..i]), weaponOf)
      invariant forall k :: kept <= k < data.Length ==> data[k] == old(data[k])
    {
      assert old(data[..i + 1])[..i] == old(data[..i]);
      var item := data[i];
      if item.id in weaponOf {
        data[kept] := item;
        kept := kept + 1;
      }
    }
  }

  /** A Go slice: the first len elements of its backing array. */
  datatype Slice = Slice(data: array<Item>, len: nat)

  ghost predicate Separate(pools: map<int, Slice>) {
    && (forall r :: r in pools ==> pools[r].len <= pools[r].data.Length)
    && (forall r, s :: r in pools && s in pools && r != s ==> pools[r].data != pools[s].data)
  }

  /** Costumes without a weapon are deleted from the index, one by one. */
  method DeleteUnpaired(costumeById: map<int, Item>, weaponOf: map<int, int>) returns (kept: map<int, Item>)
    ensures kept == map id | id in costumeById && id in weaponOf :: costumeById[id]
  {
    kept := costumeById;
    var left := costumeById.Keys;
    while left != {}
      invariant left <= costumeById.Keys
      invariant forall id :: id in kept <==> id in costumeById && (id in weaponOf || id in left)
      invariant forall id :: id in kept ==> kept[id] == costumeById[id]
      decreases |left|
    {
      SomeInt(left);
      var id :| id in left;
      if id !in weaponOf {
        kept := kept - {id};
      }
      left := left - {id};
    }
    ghost var paired := map id | id in costumeById && id in weaponOf :: costumeById[id];
    assert forall id :: id in kept <==> id in paired;
    assert forall id :: id in kept ==> kept[id] == paired[id];
  }

  method PruneUnpairedCostumes(costumeById: map<int, Item>, pools: map<int, Slice>, weaponOf: map<int, int>)
    returns (kept: map<int, Item>, pruned: map<int, Slice>)
    requires Separate(pools)
    modifies set r | r in pools :: pools[r].data
    ensures kept == map id | id in costumeById && id in weaponOf :: costumeById[id]
    ensures pruned.Keys == pools.Keys
    ensures forall r :: r in pools ==>
      && pruned[r].data == pools[r].data && pruned[r].len <= pools[r].len
      && pruned[r].data[..pruned[r].len] == Paired(old(pools[r].data[..pools[r].len]), weaponOf)
  {
    kept := DeleteUnpaired(costumeById, weaponOf);
    pruned := PruneSlices(pools, weaponOf);
  }

  method PruneSlices(pools: map<int, Slice>, weaponOf: map<int, int>) returns (pruned: map<int, Slice>)
    requires Separate(pools)
    modifies set r | r in pools :: pools[r].data
    ensures pruned.Keys == pools.Keys
    ensures forall r :: r in pools ==>
      && pruned[r].data == pools[r].data && pruned[r].len <= pools[r].len
      && pruned[r].data[..pruned[r].len] == Paired(old(pools[r].data[..pools[r].len]), weaponOf)
  {
    pruned := pools;
    var left := pools.Keys;
    while left != {}
      invariant left <= pools.Keys && pruned.Keys == pools.Keys
      invariant forall r :: r in pools ==> pruned[r].data == pools[r].data && pruned[r].len <= pools[r].len
      invariant forall r :: r in left ==> pruned[r] == pools[r] && pools[r].data[..] == old(pools[r].data[..])
      invariant forall r :: r in pools && r !in left ==>
        pruned[r].data[..pruned[r].len] == Paired(old(pools[r].data[..pools[r].len]), weaponOf)
      decreases |left|
    {
      SomeInt(left);
      var r :| r in left;
      assert pools[r].data[..pools[r].len] == pools[r].data[..][..pools[r].len];
      assert old(pools[r].data[..pools[r].len]) == old(pools[r].data[..])[..pools[r].len];
      var kept := FilterInPlace(pools[r].data, pools[r].len, weaponOf);
      pruned := pruned[r := Slice(pools[r].data, kept)];
      left := left - {r};
    }
  }

  /** Pruning keeps exactly the rows of paired costumes, as often as they were there. */
  lemma {:induction false} PairedKeeps(items: seq<Item>, weaponOf: map<int, int>, item: Item)
    ensures multiset(Paired(items, weaponOf))[item] == if item.id in weaponOf then multiset(items)[item] else 0
  {
    if items != [] {
      var n := |items| - 1;
      PairedKeeps(items[..n], weaponOf, item);
      assert items == items[..n] + [items[n]];
    }
  }

  function PrunedPool(pool: Pool, weaponOf: map<int, int>): Pool {
    pool.(costumes := map r | r in pool.costumes :: Paired(pool.costumes[r], weaponOf))
  }

  /** generateBonusItems: a costume draws its weapon along, when it has one and the catalog knows it. */
  function BonusOf(weaponOf: map<int, int>, weaponById: map<int, Item>, item: Item): Option<Item> {
    if item.kind != Rates.COSTUME || item.id !in weaponOf || weaponOf[item.id] !in weaponById then None
    else Some(weaponById[weaponOf[item.id]].(character := 0))
  }

  method GenerateBonusItems(weaponOf: map<int, int>, weaponById: map<int, Item>, items: seq<Item>) returns (bonus: map<int, Item>)
    ensures forall i :: i in bonus <==> 0 <= i < |items| && BonusOf(weaponOf, weaponById, items[i]).Some?
    ensures forall i :: i in bonus ==> Some(bonus[i]) == BonusOf(weaponOf, weaponById, items[i])
  {
    bonus := map[];
    for i := 0 to |items|
      invariant forall k :: k in bonus <==> 0 <= k < i && BonusOf(weaponOf, weaponById, items[k]).Some?
      invariant forall k :: k in bonus ==> Some(bonus[k]) == BonusOf(weaponOf, weaponById, items[k])
    {
      var item := items[i];
      if item.kind != Rates.COSTUME {
        continue;
      }
      if item.id !in weaponOf {
        continue;
      }
      var wid := weaponOf[item.id];
      if wid !in weaponById {
        continue;
      }
      var w := weaponById[wid];
      bonus := bonus[i := Item(w.kind, w.id, w.rarity, 0)];
    }
  }

  /** After pruning, rows are still filed under their own rarity, as the guarantee slots need, and a costume row a
      pruned pool gives has a weapon; it draws that weapon along exactly when the catalog knows the weapon. */
  lemma PrunedPoolServes(pool: Pool, weaponOf: map<int, int>, weaponById: map<int, Item>, rarity: int, item: Item)
    requires Filed(pool)
    ensures Filed(PrunedPool(pool, weaponOf))
    ensures CanPick(PrunedPool(pool, weaponOf), Rates.COSTUME, rarity, item) && item.kind == Rates.COSTUME ==>
      item.id in weaponOf && (BonusOf(weaponOf, weaponById, item).Some? <==> weaponOf[item.id] in weaponById)
  {
    var pruned := PrunedPool(pool, weaponOf);
    forall r, row | row in GetOr(pruned.costumes, r, []) ensures row.rarity == r && row.id in weaponOf {
      PairedKeeps(pool.costumes[r], weaponOf, row);
      assert row in multiset(pruned.costumes[r]);
      assert row in multiset(pool.costumes[r]);
      assert row in GetOr(pool.costumes, r, []);
    }
  }
}
