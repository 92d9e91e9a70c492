/** Memory parts: enhancing, sub-statuses and selling (service/parts.go). Rolls and picks are arbitrary. */
module Parts {
  import opened Wrappers
  import opened Store

  const MAX_LEVEL := 15
  const PERMIL := 1000

  datatype Part = Part(partsId: int, level: int, isProtected: bool, version: int)

  /** A sub-status slot belongs to a part and has a number from 1 on. */
  type SlotKey = (string, int)

  datatype Sub = Sub(lotteryId: int, level: int, kind: int, calculation: int, value: int, version: int)

  datatype PartDef = PartDef(rarity: int, lotteryGroup: int)
  datatype Rarity = Rarity(priceGroup: int, rateGroup: int)
  datatype StatusDef = StatusDef(kind: int, calculation: int, initial: int, functionId: int)

  datatype PartsCatalog = PartsCatalog(
    parts: map<int, PartDef>,
    rarities: map<int, Rarity>,
    prices: map<int, map<int, int>>,
    rates: map<int, map<int, int>>,
    unlockLevels: map<int, seq<int>>,
    pools: map<int, seq<int>>,
    statuses: map<int, StatusDef>,
    functions: map<int, int -> int>,
    sellPrices: map<int, int -> int>)
  {
    function Unlocks(def: PartDef): seq<int> { GetOr(unlockLevels, def.rarity, []) }
    function Pool(def: PartDef): seq<int> { GetOr(pools, def.lotteryGroup, []) }

    function Cost(rarity: Rarity, level: int): int {
      if rarity.priceGroup in prices then GetOr(prices[rarity.priceGroup], level, 0) else 0
    }

    function SuccessRate(rarity: Rarity, level: int): int {
      if rarity.rateGroup in rates then GetOr(rates[rarity.rateGroup], level, PERMIL) else PERMIL
    }

    function SubFrom(pick: int, level: int, now: int): Sub
      requires pick in statuses
    {
      var def := statuses[pick];
      var value := if def.functionId in functions then functions[def.functionId](level) else def.initial;
      Sub(pick, level, def.kind, def.calculation, value, now)
    }
  }

  /** The parts of a user, their sub-statuses and the gold. */
  datatype Owned = Owned(parts: map<string, Part>, subs: map<SlotKey, Sub>, gold: int)

  // ---- What a call may do ----

  /** Why an enhance call does nothing: unknown part, maximum level, unknown master data or too little gold. */
  predicate CanEnhance(c: PartsCatalog, s: Owned, uuid: string) {
    && uuid in s.parts && s.parts[uuid].level < MAX_LEVEL
    && s.parts[uuid].partsId in c.parts
    && c.parts[s.parts[uuid].partsId].rarity in c.rarities
    && s.gold >= c.Cost(c.rarities[c.parts[s.parts[uuid].partsId].rarity], s.parts[uuid].level)
  }

  /** Slot n of a part at this level is due. */
  predicate Due(c: PartsCatalog, def: PartDef, level: int, n: int) {
    1 <= n <= |c.Unlocks(def)| && c.Unlocks(def)[n - 1] == level
  }

  /** after is before with the due slots of the part that were empty filled from the pool; a slot may stay empty only
      if the pool has nothing, or something unknown, to draw. */
  ghost predicate Fills(c: PartsCatalog, before: map<SlotKey, Sub>, after: map<SlotKey, Sub>,
                        uuid: string, def: PartDef, level: int, now: int)
  {
    && (forall k :: k in before ==> k in after && after[k] == before[k])
    && (forall k :: k in after && k !in before ==> k.0 == uuid && Due(c, def, level, k.1) && Drawn(c, def, level, now, after[k]))
    && (forall n :: Due(c, def, level, n) && (uuid, n) !in after ==> MayMiss(c, def))
  }

  predicate Drawn(c: PartsCatalog, def: PartDef, level: int, now: int, sub: Sub) {
    sub.lotteryId in c.Pool(def) && sub.lotteryId in c.statuses && sub == c.SubFrom(sub.lotteryId, level, now)
  }

  predicate MayMiss(c: PartsCatalog, def: PartDef) {
    c.Pool(def) == [] || exists pick :: pick in c.Pool(def) && pick !in c.statuses
  }

  /** One enhance call. */
  ghost predicate Enhances(c: PartsCatalog, s: Owned, t: Owned, uuid: string, now: int, success: bool) {
    if !CanEnhance(c, s, uuid) then t == s && !success
    else
      var part := s.parts[uuid];
      var def := c.parts[part.partsId];
      var rarity := c.rarities[def.rarity];
      && t.gold == s.gold - c.Cost(rarity, part.level)
      && t.parts == s.parts[uuid := part.(level := if success then part.level + 1 else part.level, version := now)]
      && (if success then 0 < c.SuccessRate(rarity, part.level) && Fills(c, s.subs, t.subs, uuid, def, part.level + 1, now)
          else c.SuccessRate(rarity, part.level) < PERMIL && t.subs == s.subs)
  }

  predicate Sellable(c: PartsCatalog, parts: map<string, Part>, uuid: string) {
    && uuid in parts && !parts[uuid].isProtected
    && parts[uuid].partsId in c.parts && c.parts[parts[uuid].partsId].rarity in c.sellPrices
  }

  function Price(c: PartsCatalog, parts: map<string, Part>, uuid: string): int
    requires Sellable(c, parts, uuid)
  {
    c.sellPrices[c.parts[parts[uuid].partsId].rarity](parts[uuid].level)
  }

  function Sold(c: PartsCatalog, parts: map<string, Part>, uuids: seq<string>): set<string> {
    set u | u in uuids && Sellable(c, parts, u)
  }

  /** Each part sold is paid once, however often it is named. */
  function Proceeds(c: PartsCatalog, parts: map<string, Part>, uuids: seq<string>): int {
    if uuids == [] then 0
    else
      var n, u := |uuids| - 1, uuids[|uuids| - 1];
      Proceeds(c, parts, uuids[..n]) + if Sellable(c, parts, u) && u !in uuids[..n] then Price(c, parts, u) else 0
  }

  function Selling(c: PartsCatalog, s: Owned, uuids: seq<string>): Owned {
    var sold, total := Sold(c, s.parts, uuids), Proceeds(c, s.parts, uuids);
    Owned(s.parts - sold, map k | k in s.subs && k.0 !in sold :: s.subs[k], if total > 0 then s.gold + total else s.gold)
  }

  // ---- The handlers ----

  class PartsState {
    var parts: map<string, Part>
    var subs: map<SlotKey, Sub>
    var gold: int

    ghost function View(): Owned
      reads this
    {
      Owned(parts, subs, gold)
    }

    method GrantSubStatuses(c: PartsCatalog, uuid: string, part: Part, def: PartDef, now: int)
      modifies this`subs
      ensures Fills(c, old(subs), subs, uuid, def, part.level, now)
    {
      var unlockLevels := c.Unlocks(def);
      var pool := c.Pool(def);
      if |pool| == 0 {
        return;
      }
      for slotIdx := 0 to |unlockLevels|
        invariant forall k :: k in old(subs) ==> k in subs && subs[k] == old(subs)[k]
        invariant forall k :: k in subs && k !in old(subs) ==>
          k.0 == uuid && Due(c, def, part.level, k.1) && Drawn(c, def, part.level, now, subs[k])
        invariant forall n :: n <= slotIdx && Due(c, def, part.level, n) && (uuid, n) !in subs ==> MayMiss(c, def)
      {
        if part.level != unlockLevels[slotIdx] {
          continue;
        }
        var statusIndex := slotIdx + 1;
        var key := (uuid, statusIndex);
        if key in subs {
          continue;
        }
        var p :| 0 <= p < |pool|;
        var pick := pool[p];
        if pick !in c.statuses {
          continue;
        }
        subs := subs[key := c.SubFrom(pick, part.level, now)];
      }
    }

    method Enhance(c: PartsCatalog, uuid: string, now: int) returns (isSuccess: bool)
      modifies this
      ensures Enhances(c, old(View()), View(), uuid, now, isSuccess)
    {
      hide Fills;
      isSuccess := false;
      if uuid !in parts {
        return;
      }
      var part := parts[uuid];
      if part.level >= MAX_LEVEL {
        return;
      }
      if part.partsId !in c.parts {
        return;
      }
      var partDef := c.parts[part.partsId];
      if partDef.rarity !in c.rarities {
        return;
      }
      var rarity := c.rarities[partDef.rarity];
      var goldCost := 0;
      if rarity.priceGroup in c.prices {
        goldCost := GetOr(c.prices[rarity.priceGroup], part.level, 0);
      }
      if gold < goldCost {
        return;
      }
      gold := gold - goldCost;
      var successRate := PERMIL;
      if rarity.rateGroup in c.rates {
        if part.level in c.rates[rarity.rateGroup] {
          successRate := c.rates[rarity.rateGroup][part.level];
        }
      }
      var roll :| 0 <= roll < PERMIL;
      if roll < successRate {
        part := part.(level := part.level + 1);
        isSuccess := true;
        GrantSubStatuses(c, uuid, part, partDef, now);
      }
      part := part.(version := now);
      parts := parts[uuid := part];
    }

    /** The sub-status rows of one part are deleted one by one. */
    method DeleteSubs(uuid: string)
      modifies this`subs
      ensures subs == map k | k in old(subs) && k.0 != uuid :: old(subs)[k]
    {
      var left := subs.Keys;
      while left != {}
        invariant left <= old(subs).Keys
        invariant forall k :: k in subs <==> k in old(subs) && (k.0 != uuid || k in left)
        invariant forall k :: k in subs ==> subs[k] == old(subs)[k]
        decreases |left|
      {
        SomeMember(left);
        var k: SlotKey :| k in left;
        if k.0 == uuid {
          subs := subs - {k};
        }
        left := left - {k};
      }
    }

    method Sell(c: PartsCatalog, uuids: seq<string>)
      modifies this
      ensures View() == Selling(c, old(View()), uuids)
    {
      hide Sold, Proceeds, Sellable;
      var totalGold := 0;
      ghost var before := View();
      NothingSold(c, before);
      for i := 0 to |uuids|
        invariant gold == before.gold
        invariant totalGold == Proceeds(c, before.parts, uuids[..i])
        invariant parts == before.parts - Sold(c, before.parts, uuids[..i])
        invariant subs == map k | k in before.subs && k.0 !in Sold(c, before.parts, uuids[..i]) :: before.subs[k]
      {
        var uuid := uuids[i];
        OneMoreSold(c, before.parts, uuids[..i], uuid);
        assert uuids[..i + 1] == uuids[..i] + [uuid];
        if uuid !in parts {
          continue;
        }
        var part := parts[uuid];
        if part.isProtected {
          continue;
        }
        if part.partsId !in c.parts {
          continue;
        }
        var partDef := c.parts[part.partsId];
        if partDef.rarity !in c.sellPrices {
          continue;
        }
        totalGold := totalGold + c.sellPrices[partDef.rarity](part.level);
        parts := parts - {uuid};
        DeleteSubs(uuid);
        assert parts == before.parts - (Sold(c, before.parts, uuids[..i]) + {uuid});
      }
      assert uuids[..|uuids|] == uuids;
      if totalGold > 0 {
        gold := gold + totalGold;
      }
    }

    /** The granter's GrantParts: a new part under a fresh key. */
    method Acquire(uuid: string, partsId: int)
      requires uuid !in parts
      modifies this`parts
      ensures parts == old(parts)[uuid := NewPart(partsId)]
    {
      parts := parts[uuid := Part(partsId, 1, false, 0)];
    }
  }

  function NewPart(partsId: int): Part {
    Part(partsId, 1, false, 0)
  }

  lemma NothingSold(c: PartsCatalog, s: Owned)
    ensures Proceeds(c, s.parts, []) == 0 && Sold(c, s.parts, []) == {}
    ensures (map k | k in s.subs && k.0 !in Sold(c, s.parts, []) :: s.subs[k]) == s.subs
  {
  }

  lemma OneMoreSold(c: PartsCatalog, parts: map<string, Part>, uuids: seq<string>, u: string)
    ensures Sold(c, parts, uuids + [u]) ==
            Sold(c, parts, uuids) + if Sellable(c, parts, u) && u !in uuids then {u} else {}
    ensures Proceeds(c, parts, uuids + [u]) ==
            Proceeds(c, parts, uuids) + if Sellable(c, parts, u) && u !in uuids then Price(c, parts, u) else 0
    ensures u in parts - Sold(c, parts, uuids) && !parts[u].isProtected && parts[u].partsId in c.parts
              && c.parts[parts[u].partsId].rarity in c.sellPrices
       <==> Sellable(c, parts, u) && u !in uuids
  {
    assert (uuids + [u])[..|uuids|] == uuids;
  }

  // ---- Runs ----

  datatype Event = Enhanced(uuid: string, now: int, success: bool) | SoldAll(uuids: seq<string>) | Acquired(uuid: string, partsId: int)

  ghost predicate StepTo(c: PartsCatalog, s: Owned, e: Event, t: Owned) {
    match e
    case Enhanced(uuid, now, success) => Enhances(c, s, t, uuid, now, success)
    case SoldAll(uuids) => t == Selling(c, s, uuids)
    case Acquired(uuid, partsId) => uuid !in s.parts && t == s.(parts := s.parts[uuid := NewPart(partsId)])
  }

  ghost predicate Run(c: PartsCatalog, ss: seq<Owned>, es: seq<Event>) {
    |ss| == |es| + 1 && forall i :: 0 <= i < |es| ==> StepTo(c, ss[i], es[i], ss[i + 1])
  }

  /** Every sub-status row belongs to an owned part, in a slot that unlocks at the level it was drawn at, and holds
      the value of that draw. */
  ghost predicate RowsBelong(c: PartsCatalog, s: Owned) {
    forall k :: k in s.subs ==>
      && k.0 in s.parts && s.parts[k.0].partsId in c.parts
      && var def := c.parts[s.parts[k.0].partsId];
         && Due(c, def, s.subs[k].level, k.1) && s.subs[k].level <= s.parts[k.0].level
         && Drawn(c, def, s.subs[k].level, s.subs[k].version, s.subs[k])
  }

  /** Every slot an owned part's level has reached is there. */
  ghost predicate SlotsFilled(c: PartsCatalog, s: Owned) {
    forall uuid, n :: Reached(c, s, uuid, n) ==> (uuid, n) in s.subs
  }

  predicate Reached(c: PartsCatalog, s: Owned, uuid: string, n: int) {
    && uuid in s.parts && s.parts[uuid].partsId in c.parts
    && 1 <= n <= |c.Unlocks(c.parts[s.parts[uuid].partsId])|
    && c.Unlocks(c.parts[s.parts[uuid].partsId])[n - 1] <= s.parts[uuid].level
  }

  predicate LevelsBounded(s: Owned) {
    forall uuid :: uuid in s.parts ==> s.parts[uuid].level <= MAX_LEVEL
  }

  /** Pools have something to draw for every part, all of it known. */
  ghost predicate PoolsComplete(c: PartsCatalog) {
    forall id :: id in c.parts ==> !MayMiss(c, c.parts[id])
  }

  /** No slot unlocks before a new part's first level-up. */
  ghost predicate UnlocksLater(c: PartsCatalog) {
    forall id, n :: id in c.parts && 0 <= n < |c.Unlocks(c.parts[id])| ==> c.Unlocks(c.parts[id])[n] > 1
  }

  lemma EnhanceKeepsRows(c: PartsCatalog, s: Owned, t: Owned, uuid: string, now: int, success: bool)
    requires Enhances(c, s, t, uuid, now, success) && RowsBelong(c, s)
    ensures RowsBelong(c, t) && (LevelsBounded(s) ==> LevelsBounded(t))
  {
    if CanEnhance(c, s, uuid) {
      forall k | k in t.subs
        ensures k.0 in t.parts && t.parts[k.0].partsId in c.parts
        ensures var def := c.parts[t.parts[k.0].partsId];
                && Due(c, def, t.subs[k].level, k.1) && t.subs[k].level <= t.parts[k.0].level
                && Drawn(c, def, t.subs[k].level, t.subs[k].version, t.subs[k])
      {
      }
    }
  }

  lemma EnhanceKeepsSlots(c: PartsCatalog, s: Owned, t: Owned, uuid: string, now: int, success: bool)
    requires Enhances(c, s, t, uuid, now, success) && SlotsFilled(c, s) && PoolsComplete(c)
    ensures SlotsFilled(c, t)
  {
    if CanEnhance(c, s, uuid) {
      forall u, n | Reached(c, t, u, n) ensures (u, n) in t.subs {
        if Reached(c, s, u, n) {
          assert (u, n) in s.subs;
        } else {
          assert u == uuid && Due(c, c.parts[s.parts[uuid].partsId], t.parts[uuid].level, n);
        }
      }
    }
  }

  lemma SellKeeps(c: PartsCatalog, s: Owned, uuids: seq<string>)
    ensures var t := Selling(c, s, uuids);
            && (RowsBelong(c, s) ==> RowsBelong(c, t)) && (SlotsFilled(c, s) ==> SlotsFilled(c, t))
            && (LevelsBounded(s) ==> LevelsBounded(t))
  {
    hide Due, Drawn, Sellable, Proceeds;
    var t := Selling(c, s, uuids);
    forall u, n | Reached(c, t, u, n) ensures Reached(c, s, u, n) && ((u, n) in s.subs ==> (u, n) in t.subs) {
    }
  }

  lemma AcquireKeeps(c: PartsCatalog, s: Owned, uuid: string, partsId: int)
    requires uuid !in s.parts && UnlocksLater(c)
    ensures var t := s.(parts := s.parts[uuid := NewPart(partsId)]);
            && (RowsBelong(c, s) ==> RowsBelong(c, t)) && (SlotsFilled(c, s) ==> SlotsFilled(c, t))
            && (LevelsBounded(s) ==> LevelsBounded(t))
  {
    hide Due, Drawn;
    var t := s.(parts := s.parts[uuid := NewPart(partsId)]);
    forall u, n | Reached(c, t, u, n) ensures Reached(c, s, u, n) {
    }
  }

  /** Over any run of enhance successes and failures, sales and new parts, slot n of an owned part exists exactly when
      its level has reached the slot's unlock level, no level passes 15, and no row is left of a part sold. */
  lemma {:induction false} SlotsTrackLevel(c: PartsCatalog, ss: seq<Owned>, es: seq<Event>)
    requires Run(c, ss, es) && PoolsComplete(c) && UnlocksLater(c)
    requires RowsBelong(c, ss[0]) && SlotsFilled(c, ss[0]) && LevelsBounded(ss[0])
    ensures var s := ss[|es|];
            && RowsBelong(c, s) && LevelsBounded(s)
            && forall uuid, n :: (uuid, n) in s.subs <==> Reached(c, s, uuid, n)
  {
    hide PoolsComplete, UnlocksLater, LevelsBounded, Enhances, Selling;
    if es != [] {
      var n := |es| - 1;
      SlotsTrackLevel(c, ss[..n + 1], es[..n]);
      assert SlotsFilled(c, ss[n]);
      hide RowsBelong, SlotsFilled;
      assert StepTo(c, ss[n], es[n], ss[n + 1]);
      match es[n] {
        case Enhanced(uuid, now, success) =>
          EnhanceKeepsRows(c, ss[n], ss[n + 1], uuid, now, success);
          EnhanceKeepsSlots(c, ss[n], ss[n + 1], uuid, now, success);
        case SoldAll(uuids) => SellKeeps(c, ss[n], uuids);
        case Acquired(uuid, partsId) => AcquireKeeps(c, ss[n], uuid, partsId);
      }
    }
    FilledMeansReached(c, ss[|es|]);
  }

  lemma FilledMeansReached(c: PartsCatalog, s: Owned)
    requires RowsBelong(c, s) && SlotsFilled(c, s)
    ensures forall uuid, n :: (uuid, n) in s.subs <==> Reached(c, s, uuid, n)
  {
    forall uuid, n ensures (uuid, n) in s.subs <==> Reached(c, s, uuid, n) {
      if (uuid, n) in s.subs {
        var k: SlotKey := (uuid, n);
        assert k in s.subs && Due(c, c.parts[s.parts[k.0].partsId], s.subs[k].level, k.1);
      }
    }
  }

  /** A slot missed at its level, because the pool had nothing known to draw, is never filled later. */
  lemma MissedSlotStaysEmpty(c: PartsCatalog, s: Owned, e: Event, t: Owned, uuid: string, n: int)
    requires StepTo(c, s, e, t)
    requires Reached(c, s, uuid, n) && (uuid, n) !in s.subs
    ensures (uuid, n) !in t.subs
    ensures uuid in t.parts ==> Reached(c, t, uuid, n)
  {
    hide Drawn, MayMiss, Sellable, Proceeds;
  }

  // ---- Exactly when slots track levels ----

  /** The level can be reached from a new part of this kind: its rarity is known and every enhance on the way can
      succeed. */
  predicate Reachable(c: PartsCatalog, id: int, level: int) {
    && id in c.parts && c.parts[id].rarity in c.rarities && 1 <= level <= MAX_LEVEL
    && forall l :: 1 <= l < level ==> c.SuccessRate(c.rarities[c.parts[id].rarity], l) > 0
  }

  /** A slot that unlocks at a reachable level and may have nothing known to draw. */
  predicate MaySkip(c: PartsCatalog, id: int, n: int) {
    && id in c.parts && 0 <= n < |c.Unlocks(c.parts[id])|
    && Reachable(c, id, c.Unlocks(c.parts[id])[n]) && MayMiss(c, c.parts[id])
  }

  ghost predicate Tracks(c: PartsCatalog, s: Owned) {
    && RowsBelong(c, s) && LevelsBounded(s)
    && forall uuid, n :: (uuid, n) in s.subs <==> Reached(c, s, uuid, n)
  }

  predicate NothingOwned(s: Owned) {
    s.parts == map[] && s.subs == map[]
  }

  /** Owned parts of known kinds have levels they can have reached. */
  ghost predicate LevelsReachable(c: PartsCatalog, s: Owned) {
    forall uuid :: uuid in s.parts && s.parts[uuid].partsId in c.parts && s.parts[uuid].level != 1 ==>
      Reachable(c, s.parts[uuid].partsId, s.parts[uuid].level)
  }

  ghost predicate NoSkips(c: PartsCatalog) {
    forall id, n :: !MaySkip(c, id, n)
  }

  lemma EnhanceReaches(c: PartsCatalog, s: Owned, t: Owned, uuid: string, now: int, success: bool)
    requires Enhances(c, s, t, uuid, now, success)
    requires LevelsReachable(c, s) && SlotsFilled(c, s) && LevelsPositive(s) && UnlocksLater(c) && NoSkips(c)
    ensures LevelsReachable(c, t) && SlotsFilled(c, t) && LevelsPositive(t)
  {
    hide Drawn, MayMiss;
    if CanEnhance(c, s, uuid) {
      var part := s.parts[uuid];
      if success {
        assert Reachable(c, part.partsId, part.level + 1);
      }
      forall u, n | Reached(c, t, u, n) ensures (u, n) in t.subs {
        if Reached(c, s, u, n) {
          assert (u, n) in s.subs;
        } else {
          assert Due(c, c.parts[part.partsId], part.level + 1, n);
          assert !MaySkip(c, part.partsId, n - 1);
        }
      }
    }
  }

  predicate LevelsPositive(s: Owned) {
    forall uuid :: uuid in s.parts ==> s.parts[uuid].level >= 1
  }

  lemma SellReaches(c: PartsCatalog, s: Owned, uuids: seq<string>)
    ensures var t := Selling(c, s, uuids);
            (LevelsReachable(c, s) ==> LevelsReachable(c, t)) && (LevelsPositive(s) ==> LevelsPositive(t))
  {
    hide Reachable, Sellable, Proceeds;
  }

  lemma {:induction false} NoSkipsTrack(c: PartsCatalog, ss: seq<Owned>, es: seq<Event>)
    requires Run(c, ss, es) && UnlocksLater(c) && NoSkips(c) && NothingOwned(ss[0])
    ensures RowsBelong(c, ss[|es|]) && SlotsFilled(c, ss[|es|]) && LevelsBounded(ss[|es|])
    ensures LevelsReachable(c, ss[|es|]) && LevelsPositive(ss[|es|])
  {
    if es != [] {
      var n := |es| - 1;
      NoSkipsTrack(c, ss[..n + 1], es[..n]);
      hide RowsBelong, SlotsFilled, LevelsBounded, LevelsReachable, LevelsPositive, Enhances, Selling, UnlocksLater, NoSkips;
      assert StepTo(c, ss[n], es[n], ss[n + 1]);
      match es[n] {
        case Enhanced(uuid, now, success) =>
          EnhanceKeepsRows(c, ss[n], ss[n + 1], uuid, now, success);
          EnhanceReaches(c, ss[n], ss[n + 1], uuid, now, success);
        case SoldAll(uuids) =>
          SellKeeps(c, ss[n], uuids);
          SellReaches(c, ss[n], uuids);
        case Acquired(uuid, partsId) =>
          AcquireKeeps(c, ss[n], uuid, partsId);
          AcquireReaches(c, ss[n], uuid, partsId);
      }
    }
  }

  lemma AcquireReaches(c: PartsCatalog, s: Owned, uuid: string, partsId: int)
    ensures var t := s.(parts := s.parts[uuid := NewPart(partsId)]);
            (LevelsReachable(c, s) ==> LevelsReachable(c, t)) && (LevelsPositive(s) ==> LevelsPositive(t))
  {
    hide Reachable;
  }

  /** Gold enough for every enhance from level 1 up to this level. */
  function Bill(c: PartsCatalog, rarity: Rarity, level: nat): nat {
    if level <= 1 then 0
    else Bill(c, rarity, level - 1) + var cost := c.Cost(rarity, level - 1); if cost < 0 then 0 else cost
  }

  /** A run that buys one part and enhances it to the level, drawing an unknown entry, or nothing, at every slot. */
  lemma {:induction false} EnhanceWithoutSlots(c: PartsCatalog, id: int, level: nat, gold: int)
    returns (ss: seq<Owned>, es: seq<Event>)
    requires Reachable(c, id, level) && MayMiss(c, c.parts[id])
    requires gold >= Bill(c, c.rarities[c.parts[id].rarity], level)
    ensures Run(c, ss, es) && ss[0] == Owned(map[], map[], gold)
    ensures var s := ss[|es|];
            && "p" in s.parts && s.parts["p"].partsId == id && s.parts["p"].level == level && s.subs == map[]
            && s.gold >= gold - Bill(c, c.rarities[c.parts[id].rarity], level)
  {
    if level == 1 {
      var s := Owned(map[], map[], gold);
      var t := s.(parts := s.parts["p" := NewPart(id)]);
      ss, es := [s, t], [Acquired("p", id)];
      assert StepTo(c, s, es[0], t);
    } else {
      var rarity := c.rarities[c.parts[id].rarity];
      ss, es := EnhanceWithoutSlots(c, id, level - 1, gold);
      var s := ss[|es|];
      var part := s.parts["p"];
      var t := Owned(s.parts["p" := part.(level := level, version := 0)], map[], s.gold - c.Cost(rarity, level - 1));
      assert Enhances(c, s, t, "p", 0, true);
      RunOn(c, ss, es, Enhanced("p", 0, true), t);
      ss, es := ss + [t], es + [Enhanced("p", 0, true)];
    }
  }

  lemma RunOn(c: PartsCatalog, ss: seq<Owned>, es: seq<Event>, e: Event, t: Owned)
    requires Run(c, ss, es) && StepTo(c, ss[|es|], e, t)
    ensures Run(c, ss + [t], es + [e])
  {
    hide StepTo;
    forall i | 0 <= i < |es| + 1 ensures StepTo(c, (ss + [t])[i], (es + [e])[i], (ss + [t])[i + 1]) {
      if i < |es| {
        assert StepTo(c, ss[i], es[i], ss[i + 1]);
      }
    }
  }

  /** Slots track levels on every run from an empty inventory exactly when no slot that unlocks at a reachable level
      can be missed. */
  lemma SlotsTrackExactly(c: PartsCatalog)
    requires UnlocksLater(c)
    ensures NoSkips(c) <==> forall ss, es :: Run(c, ss, es) && NothingOwned(ss[0]) ==> Tracks(c, ss[|es|])
  {
    if NoSkips(c) {
      forall ss, es | Run(c, ss, es) && NothingOwned(ss[0]) ensures Tracks(c, ss[|es|]) {
        NoSkipsTrack(c, ss, es);
        FilledMeansReached(c, ss[|es|]);
      }
    } else {
      var id, n :| MaySkip(c, id, n);
      var level := c.Unlocks(c.parts[id])[n];
      var ss, es := EnhanceWithoutSlots(c, id, level, Bill(c, c.rarities[c.parts[id].rarity], level));
      assert Reached(c, ss[|es|], "p", n + 1);
      assert ("p", n + 1) !in ss[|es|].subs;
      assert !Tracks(c, ss[|es|]);
    }
  }

  // ---- One call, field by field ----

  /** What an enhance call costs: the price of the level, nothing where none is listed; None when it does nothing. */
  function Charged(c: PartsCatalog, s: Owned, uuid: string): Option<int> {
    if uuid !in s.parts || s.parts[uuid].level >= 15 || s.parts[uuid].partsId !in c.parts then None
    else
      var def := c.parts[s.parts[uuid].partsId];
      if def.rarity !in c.rarities then None
      else
        var group, level := c.rarities[def.rarity].priceGroup, s.parts[uuid].level;
        var price := if group in c.prices && level in c.prices[group] then c.prices[group][level] else 0;
        if s.gold < price then None else Some(price)
  }

  /** The chance in permil of a success at the part's level, certain where none is listed. */
  function Chance(c: PartsCatalog, s: Owned, uuid: string): int
    requires Charged(c, s, uuid).Some?
  {
    var group, level := c.rarities[c.parts[s.parts[uuid].partsId].rarity].rateGroup, s.parts[uuid].level;
    if group in c.rates && level in c.rates[group] then c.rates[group][level] else 1000
  }

  /** A call that does something takes the price and stamps the part; a success, out of a chance above none, is one more
      level, and a failure, out of one below certain, none. */
  lemma EnhanceWrites(c: PartsCatalog, s: Owned, t: Owned, uuid: string, now: int, success: bool)
    requires Enhances(c, s, t, uuid, now, success)
    ensures match Charged(c, s, uuid)
            case None => t == s && !success
            case Some(price) =>
              var part := s.parts[uuid];
              && t.gold == s.gold - price
              && t.parts == s.parts[uuid := Part(part.partsId, if success then part.level + 1 else part.level, part.isProtected, now)]
              && (if success then Chance(c, s, uuid) > 0 else Chance(c, s, uuid) < 1000 && t.subs == s.subs)
  {
    hide Fills;
  }

  /** The row a success writes into a slot, due at the new level and empty before: a status of the part's pool, its
      value that of the level, or the initial one without a function. */
  lemma EnhanceDraws(c: PartsCatalog, s: Owned, t: Owned, uuid: string, now: int, k: SlotKey)
    requires Enhances(c, s, t, uuid, now, true) && Charged(c, s, uuid).Some? && k in t.subs && k !in s.subs
    ensures var def, level, sub := c.parts[s.parts[uuid].partsId], s.parts[uuid].level + 1, t.subs[k];
            var unlocks := GetOr(c.unlockLevels, def.rarity, []);
            && k.0 == uuid && 1 <= k.1 <= |unlocks| && unlocks[k.1 - 1] == level
            && sub.lotteryId in GetOr(c.pools, def.lotteryGroup, []) && sub.lotteryId in c.statuses
            && var st := c.statuses[sub.lotteryId];
               && sub.level == level && sub.version == now && sub.kind == st.kind && sub.calculation == st.calculation
               && sub.value == if st.functionId in c.functions then c.functions[st.functionId](level) else st.initial
  {
  }

  /** Selling one part: gone with its rows, for the price of its rarity at its level, if it is there, unprotected and
      priced; a price that is not positive is not taken off. */
  lemma SellOne(c: PartsCatalog, s: Owned, u: string)
    ensures Selling(c, s, [u]) ==
            if u in s.parts && !s.parts[u].isProtected && s.parts[u].partsId in c.parts
               && c.parts[s.parts[u].partsId].rarity in c.sellPrices
            then
              var price := c.sellPrices[c.parts[s.parts[u].partsId].rarity](s.parts[u].level);
              Owned(s.parts - {u}, map k | k in s.subs && k.0 != u :: s.subs[k], if price > 0 then s.gold + price else s.gold)
            else s
  {
    assert [u][..0] == [];
    NothingSold(c, s);
    OneMoreSold(c, s.parts, [], u);
    assert [] + [u] == [u];
  }

  ghost predicate PricesNotNegative(c: PartsCatalog) {
    forall r, level :: r in c.sellPrices ==> c.sellPrices[r](level) >= 0
  }

  lemma {:induction false} SoldInTurn(c: PartsCatalog, s: Owned, a: seq<string>, b: seq<string>)
    ensures var left := s.parts - Sold(c, s.parts, a);
            && Sold(c, s.parts, a + b) == Sold(c, s.parts, a) + Sold(c, left, b)
            && Proceeds(c, s.parts, a + b) == Proceeds(c, s.parts, a) + Proceeds(c, left, b)
  {
    var left := s.parts - Sold(c, s.parts, a);
    if b == [] {
      assert a + b == a;
    } else {
      var n, u := |b| - 1, b[|b| - 1];
      SoldInTurn(c, s, a, b[..n]);
      assert a + b == (a + b[..n]) + [u] && b == b[..n] + [u];
      OneMoreSold(c, s.parts, a + b[..n], u);
      OneMoreSold(c, left, b[..n], u);
      assert Sellable(c, left, u) <==> Sellable(c, s.parts, u) && u !in a;
    }
  }

  lemma {:induction false} ProceedsNotNegative(c: PartsCatalog, parts: map<string, Part>, uuids: seq<string>)
    requires PricesNotNegative(c)
    ensures Proceeds(c, parts, uuids) >= 0
  {
    if uuids != [] {
      ProceedsNotNegative(c, parts, uuids[..|uuids| - 1]);
    }
  }

  /** Selling two lists in one call is selling them in two, exactly when the totals of the two are not of opposite signs,
      as when no price is negative: a total below none is not taken off. */
  lemma SellTwice(c: PartsCatalog, s: Owned, a: seq<string>, b: seq<string>)
    ensures var first := Proceeds(c, s.parts, a);
            var second := Proceeds(c, Selling(c, s, a).parts, b);
            Selling(c, s, a + b) == Selling(c, Selling(c, s, a), b) <==>
              (first >= 0 && second >= 0) || (first <= 0 && second <= 0)
    ensures PricesNotNegative(c) ==> Selling(c, s, a + b) == Selling(c, Selling(c, s, a), b)
  {
    hide Proceeds, Sellable, Selling;
    SoldInTurn(c, s, a, b);
    RowsSoldTwice(c, s, a, b);
    if PricesNotNegative(c) {
      ProceedsNotNegative(c, s.parts, a);
      ProceedsNotNegative(c, Selling(c, s, a).parts, b);
    }
    GoldSold(c, s, a);
    GoldSold(c, s, a + b);
    GoldSold(c, Selling(c, s, a), b);
  }

  lemma GoldSold(c: PartsCatalog, s: Owned, uuids: seq<string>)
    ensures Selling(c, s, uuids).gold == s.gold + Max(Proceeds(c, s.parts, uuids), 0)
    ensures Selling(c, s, uuids).parts == s.parts - Sold(c, s.parts, uuids)
  {
    hide Proceeds, Sold;
  }

  lemma RowsSoldTwice(c: PartsCatalog, s: Owned, a: seq<string>, b: seq<string>)
    ensures Selling(c, s, a + b).parts == Selling(c, Selling(c, s, a), b).parts
    ensures Selling(c, s, a + b).subs == Selling(c, Selling(c, s, a), b).subs
  {
    hide Proceeds, Sold;
    SoldInTurn(c, s, a, b);
    var left := s.parts - Sold(c, s.parts, a);
    assert s.parts - (Sold(c, s.parts, a) + Sold(c, left, b)) == left - Sold(c, left, b);
  }
}
