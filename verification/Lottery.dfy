/** The costume lottery of service/costume.go: a draw by weight, kept aside until confirmed when the slot already has
    an effect. Odds number 0 stands for no effect. */
module Lottery {
  import opened Store
  import opened Weighted

  datatype Odds = Odds(weight: nat, number: int)
  datatype SlotDef = SlotDef(oddsGroup: int, materialGroup: int)
  datatype Material = Material(id: int, count: int)
  datatype Pending = Pending(slot: int, number: int)

  datatype LotteryCatalog = LotteryCatalog(
    slots: map<(int, int), SlotDef>, odds: map<int, seq<Odds>>, materials: map<int, seq<Material>>, drawGold: int)
  {
    function Pool(def: SlotDef): seq<Odds> { GetOr(odds, def.oddsGroup, []) }
    function Materials(def: SlotDef): seq<Material> { GetOr(materials, def.materialGroup, []) }
  }

  type EffectKey = (string, int)

  datatype Lot = Lot(
    costumes: map<string, int>, effects: map<EffectKey, int>, pending: map<string, Pending>, materials: map<int, int>, gold: int)
  {
    function Effect(uuid: string, slot: int): int { GetOr(effects, (uuid, slot), 0) }
  }

  function Weights(pool: seq<Odds>): seq<nat> {
    seq(|pool|, i requires 0 <= i < |pool| => pool[i].weight)
  }

  // ---- Paying ----

  /** What is short is taken as far as it goes. */
  function PayOne(have: map<int, int>, m: Material): map<int, int> {
    var cur := GetOr(have, m.id, 0);
    have[m.id := cur - if cur < m.count then cur else m.count]
  }

  function Pay(have: map<int, int>, mats: seq<Material>): map<int, int> {
    if mats == [] then have else PayOne(Pay(have, mats[..|mats| - 1]), mats[|mats| - 1])
  }

  function Asked(mats: seq<Material>, id: int): int {
    if mats == [] then 0
    else Asked(mats[..|mats| - 1], id) + if mats[|mats| - 1].id == id then mats[|mats| - 1].count else 0
  }

  /** Row after row or at once, a draw takes what it asks for of each material, or all there is; never more. */
  lemma {:induction false} PaysOrEmpties(have: map<int, int>, mats: seq<Material>, id: int)
    requires GetOr(have, id, 0) >= 0 && forall m :: m in mats ==> m.count >= 0
    ensures Asked(mats, id) >= 0
    ensures var left := GetOr(have, id, 0) - Asked(mats, id); GetOr(Pay(have, mats), id, 0) == if left < 0 then 0 else left
  {
    if mats != [] {
      var n := |mats| - 1;
      assert mats[n] in mats && forall m :: m in mats[..n] ==> m in mats;
      PaysOrEmpties(have, mats[..n], id);
    }
  }

  // ---- The handlers ----

  predicate CanDraw(c: LotteryCatalog, s: Lot, uuid: string, slot: int) {
    && uuid in s.costumes && (s.costumes[uuid], slot) in c.slots
    && c.Pool(c.slots[(s.costumes[uuid], slot)]) != []
  }

  /** A draw of the given odds row. */
  function Drawn(c: LotteryCatalog, s: Lot, uuid: string, slot: int, number: int): Lot
    requires CanDraw(c, s, uuid, slot)
  {
    var def := c.slots[(s.costumes[uuid], slot)];
    var paid := s.(gold := s.gold - c.drawGold, materials := Pay(s.materials, c.Materials(def)));
    if s.Effect(uuid, slot) == 0 then paid.(effects := s.effects[(uuid, slot) := number])
    else paid.(pending := s.pending[uuid := Pending(slot, number)])
  }

  ghost predicate Draws(c: LotteryCatalog, s: Lot, uuid: string, slot: int, t: Lot) {
    if !CanDraw(c, s, uuid, slot) then t == s
    else
      var pool := c.Pool(c.slots[(s.costumes[uuid], slot)]);
      exists roll: nat, row: nat :: Selects(Weights(pool), roll, row) && row < |pool| && t == Drawn(c, s, uuid, slot, pool[row].number)
  }

  function Confirmed(s: Lot, uuid: string, accept: bool): Lot {
    if uuid !in s.pending then s
    else
      var p := s.pending[uuid];
      s.(effects := if accept then s.effects[(uuid, p.slot) := p.number] else s.effects, pending := s.pending - {uuid})
  }

  class LotteryState {
    var costumes: map<string, int>
    var effects: map<EffectKey, int>
    var pending: map<string, Pending>
    var materials: map<int, int>
    var gold: int

    ghost function View(): Lot
      reads this
    {
      Lot(costumes, effects, pending, materials, gold)
    }

    method PayMaterials(mats: seq<Material>)
      modifies this`materials
      ensures materials == Pay(old(materials), mats)
    {
      for i := 0 to |mats|
        invariant materials == Pay(old(materials), mats[..i])
      {
        assert mats[..i + 1][..i] == mats[..i];
        var mat := mats[i];
        var cur := GetOr(materials, mat.id, 0);
        var cost := mat.count;
        if cur < cost {
          cost := cur;
        }
        materials := materials[mat.id := cur - cost];
      }
      assert mats[..|mats|] == mats;
    }

    /** rand.Int31n panics on a pool without weight. */
    method DrawLotteryEffect(c: LotteryCatalog, uuid: string, slot: int)
      requires CanDraw(c, View(), uuid, slot) ==> Total(Weights(c.Pool(c.slots[(costumes[uuid], slot)]))) > 0
      modifies this
      ensures Draws(c, old(View()), uuid, slot, View())
    {
      if uuid !in costumes {
        return;
      }
      if (costumes[uuid], slot) !in c.slots {
        return;
      }
      var effectRow := c.slots[(costumes[uuid], slot)];
      var oddsPool := c.Pool(effectRow);
      if |oddsPool| == 0 {
        return;
      }
      gold := gold - c.drawGold;
      PayMaterials(c.Materials(effectRow));
      var totalWeight := TotalWeight(Weights(oddsPool));
      var roll: nat :| roll < totalWeight;
      var row := PickSubtractive(Weights(oddsPool), roll);
      var picked := oddsPool[row];
      var key := (uuid, slot);
      if GetOr(effects, key, 0) == 0 {
        effects := effects[key := picked.number];
      } else {
        pending := pending[uuid := Pending(slot, picked.number)];
      }
      assert View() == Drawn(c, old(View()), uuid, slot, oddsPool[row].number);
    }

    method ConfirmLotteryEffect(uuid: string, accept: bool)
      modifies this`effects, this`pending
      ensures View() == Confirmed(old(View()), uuid, accept)
    {
      if uuid !in pending {
        return;
      }
      var p := pending[uuid];
      if accept {
        effects := effects[(uuid, p.slot) := p.number];
      }
      pending := pending - {uuid};
    }
  }

  // ---- Runs ----

  datatype Event = Draw(uuid: string, slot: int) | Confirm(uuid: string, accept: bool)

  ghost predicate StepTo(c: LotteryCatalog, s: Lot, e: Event, t: Lot) {
    match e
    case Draw(uuid, slot) => Draws(c, s, uuid, slot, t)
    case Confirm(uuid, accept) => t == Confirmed(s, uuid, accept)
  }

  ghost predicate Run(c: LotteryCatalog, ss: seq<Lot>, es: seq<Event>) {
    |ss| == |es| + 1 && forall i :: 0 <= i < |es| ==> StepTo(c, ss[i], es[i], ss[i + 1])
  }

  ghost predicate NumbersSet(c: LotteryCatalog) {
    forall g, i :: g in c.odds && 0 <= i < |c.odds[g]| ==> c.odds[g][i].number != 0
  }

  /** A result kept aside is for a slot that has an effect, and is a real one. */
  ghost predicate PendingReplaces(s: Lot) {
    forall uuid :: uuid in s.pending ==> s.pending[uuid].number != 0 && s.Effect(uuid, s.pending[uuid].slot) != 0
  }

  /** This step accepts a new result for the slot. */
  predicate Accepts(s: Lot, e: Event, uuid: string, slot: int) {
    e.Confirm? && e.accept && e.uuid == uuid && uuid in s.pending && s.pending[uuid].slot == slot
  }

  lemma StepKeeps(c: LotteryCatalog, s: Lot, e: Event, t: Lot, uuid: string, slot: int)
    requires StepTo(c, s, e, t) && NumbersSet(c) && PendingReplaces(s)
    ensures PendingReplaces(t)
    ensures s.Effect(uuid, slot) != 0 ==>
      t.Effect(uuid, slot) == if Accepts(s, e, uuid, slot) then s.pending[uuid].number else s.Effect(uuid, slot)
  {
    hide Pay;
  }

  /** Over any run of draws and confirmations, an effect once drawn is never lost, and it changes only where the player
      accepts a result drawn for that very slot. */
  lemma {:induction false} EffectsChangeByConsent(c: LotteryCatalog, ss: seq<Lot>, es: seq<Event>, uuid: string, slot: int)
    requires Run(c, ss, es) && NumbersSet(c) && PendingReplaces(ss[0])
    requires ss[0].Effect(uuid, slot) != 0
    ensures PendingReplaces(ss[|es|]) && ss[|es|].Effect(uuid, slot) != 0
    ensures (forall i :: 0 <= i < |es| ==> !Accepts(ss[i], es[i], uuid, slot)) ==> ss[|es|].Effect(uuid, slot) == ss[0].Effect(uuid, slot)
  {
    hide StepTo;
    if es != [] {
      var n := |es| - 1;
      EffectsChangeByConsent(c, ss[..n + 1], es[..n], uuid, slot);
      StepKeeps(c, ss[n], es[n], ss[n + 1], uuid, slot);
    }
  }

  // ---- One call, field by field ----

  /** A draw that can happen takes its gold and its materials; the number drawn, that of a row with weight, takes effect
      in an empty slot and is kept aside otherwise. */
  lemma DrawWrites(c: LotteryCatalog, s: Lot, uuid: string, slot: int, t: Lot)
    requires Draws(c, s, uuid, slot, t) && CanDraw(c, s, uuid, slot)
    ensures var def := c.slots[(s.costumes[uuid], slot)];
            && t.gold == s.gold - c.drawGold && t.costumes == s.costumes
            && t.materials == Pay(s.materials, GetOr(c.materials, def.materialGroup, []))
            && exists row :: row in GetOr(c.odds, def.oddsGroup, []) && row.weight > 0 &&
                 if (uuid, slot) in s.effects && s.effects[(uuid, slot)] != 0
                 then t.effects == s.effects && t.pending == s.pending[uuid := Pending(slot, row.number)]
                 else t.effects == s.effects[(uuid, slot) := row.number] && t.pending == s.pending
  {
    hide Pay;
    var pool := c.Pool(c.slots[(s.costumes[uuid], slot)]);
    var roll: nat, row: nat :|
      Selects(Weights(pool), roll, row) && row < |pool| && t == Drawn(c, s, uuid, slot, pool[row].number);
    assert pool[row] in pool && pool[row].weight == Weights(pool)[row] > 0;
  }

  /** An answer drops what was kept aside, and puts it into its slot if accepted. */
  lemma ConfirmWrites(s: Lot, uuid: string, accept: bool)
    ensures var t := Confirmed(s, uuid, accept);
            && t.costumes == s.costumes && t.materials == s.materials && t.gold == s.gold
            && uuid !in t.pending && (forall x :: x != uuid ==> (x in t.pending <==> x in s.pending))
            && (forall x :: x in t.pending ==> t.pending[x] == s.pending[x])
            && t.effects == if accept && uuid in s.pending
                            then s.effects[(uuid, s.pending[uuid].slot) := s.pending[uuid].number] else s.effects
  {
  }
}
