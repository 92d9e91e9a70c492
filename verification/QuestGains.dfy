/** What a won quest gives besides its reward lists: experience for the player and for the characters and costumes of
    the deck it was played with, and gold; and what skipping pays and gains. */
module QuestGains {
  import opened Wrappers
  import opened Store
  import opened Experience
  import opened Masterdata
  import opened QuestFlow
  import opened QuestRuns
  import opened QuestUpkeep
  import opened QuestReports
  import opened QuestRows

  // ---- Who gains ----

  /** The costume is worn by a member of the deck the quest is played with. */
  predicate Worn(u: User, q: int, costume: string) {
    && q in u.quests && u.quests[q].deck != 0 && u.quests[q].deck in u.decks && costume != ""
    && var d := u.decks[u.quests[q].deck];
       || Wears(u, d.member1, costume) || Wears(u, d.member2, costume) || Wears(u, d.member3, costume)
  }

  predicate Wears(u: User, member: string, costume: string) {
    member != "" && member in u.deckCostumes && u.deckCostumes[member] == costume
  }

  /** The character wears a known costume of that deck. */
  ghost predicate Plays(c: Catalog, u: User, q: int, character: int) {
    exists k :: Worn(u, q, k) && k in u.costumes && u.costumes[k].costumeId in c.costumes
                && c.costumes[u.costumes[k].costumeId].characterId == character
  }

  lemma UnitsAre(c: Catalog, u: User, q: int)
    ensures var units := DeckUnits(c, u, q);
            && (units.None? <==> forall k :: !Worn(u, q, k))
            && (units.Some? ==> (forall k :: k in units.value.costumes <==> Worn(u, q, k))
                                && forall x :: x in units.value.characters <==> Plays(c, u, q, x))
  {
    if QuestOf(u, q).deck != 0 && QuestOf(u, q).deck in u.decks {
      var d := u.decks[QuestOf(u, q).deck];
      var worn := set m | m in Members(d) && m in u.deckCostumes && u.deckCostumes[m] != "" :: u.deckCostumes[m];
      forall k ensures k in worn <==> Worn(u, q, k) {
        if Worn(u, q, k) {
          if Wears(u, d.member1, k) { assert d.member1 in Members(d); }
          else if Wears(u, d.member2, k) { assert d.member2 in Members(d); }
          else { assert d.member3 in Members(d); }
        }
      }
    }
  }

  // ---- How much ----

  /** Experience stops at the table's last threshold. */
  function UpTo(exp: int, thresholds: seq<int>): int {
    if thresholds == [] then exp else Min(exp, thresholds[|thresholds| - 1])
  }

  /** The player's new level refills stamina when the level has a maximum. */
  predicate PlayerGains(c: Catalog, st: Status, amount: int, now: int, r: Status) {
    && r.exp == UpTo(st.exp + amount, c.userExp)
    && r.level == LevelOf(st.exp + amount, c.userExp)
    && (if r.level > st.level && r.level in c.maxStamina
        then r.staminaMilli == 1000 * c.maxStamina[r.level] && r.staminaUpdated == now
        else r.staminaMilli == st.staminaMilli && r.staminaUpdated == st.staminaUpdated)
  }

  /** An entry is as before, present or not. */
  ghost predicate SameAt<K, V>(m: map<K, V>, n: map<K, V>, k: K) {
    (k in n <==> k in m) && (k in m ==> n[k] == m[k])
  }

  ghost predicate CharacterGains(c: Catalog, u: User, amount: int, x: int, v: User) {
    var exp := GetOr(u.characters, x, Character(0, 0)).exp + amount;
    x in v.characters && v.characters[x] == Character(LevelOf(exp, c.characterExp), UpTo(exp, c.characterExp))
  }

  /** The level cap of a costume, when its rarity has one. */
  function LevelCap(c: Catalog, def: CostumeDef, limitBreak: int): Option<int> {
    if def.rarity in c.costumeMaxLevel then Some(GetOr(c.costumeMaxLevel[def.rarity], limitBreak, 0)) else None
  }

  /** A costume at its cap, or unknown, gains nothing; one lifted past the cap is set back to the cap and its threshold;
      one without a table gains experience only. */
  ghost predicate CostumeTrains(c: Catalog, u: User, amount: int, k: string, v: User) {
    var row := GetOr(u.costumes, k, Costume(0, 0, 0, 0));
    if row.costumeId !in c.costumes then SameAt(u.costumes, v.costumes, k)
    else
      var def := c.costumes[row.costumeId];
      var cap, exp := LevelCap(c, def, row.limitBreak), row.exp + amount;
      if cap.Some? && row.level >= cap.value then SameAt(u.costumes, v.costumes, k)
      else
        k in v.costumes && v.costumes[k] ==
          if def.rarity !in c.costumeExp then row.(exp := exp)
          else
            var t := c.costumeExp[def.rarity];
            if cap.Some? && LevelOf(exp, t) > cap.value && 0 <= cap.value < |t|
            then row.(level := cap.value, exp := t[cap.value])
            else row.(level := LevelOf(exp, t), exp := UpTo(exp, t))
  }

  /** The player gains always; the deck's characters and costumes do unless the quest lends its deck, and each kind only
      when the quest gives it experience. */
  ghost predicate Gains(c: Catalog, u: User, q: int, now: int, v: User)
    requires q in c.quests
  {
    var def, own := c.quests[q], q !in c.rentalQuests;
    && PlayerGains(c, u.status, def.userExp, now, v.status)
    && (forall x :: if own && def.characterExp != 0 && Plays(c, u, q, x) then CharacterGains(c, u, def.characterExp, x, v)
                    else SameAt(u.characters, v.characters, x))
    && (forall k :: if own && def.costumeExp != 0 && Worn(u, q, k) then CostumeTrains(c, u, def.costumeExp, k, v)
                    else SameAt(u.costumes, v.costumes, k))
  }

  lemma LeveledIs(exp: int, t: seq<int>)
    ensures LevelAndCapOf(exp, t) == Leveled(LevelOf(exp, t), UpTo(exp, t))
  {
    hide LevelOf;
  }

  lemma StatusGains(c: Catalog, st: Status, amount: int, now: int)
    ensures PlayerGains(c, st, amount, now, StatusAfterExp(c, st, amount, now))
  {
    hide LevelAndCapOf, LevelOf, UpTo;
    LeveledIs(st.exp + amount, c.userExp);
  }

  lemma TrainedAre(c: Catalog, u: User, q: int)
    requires q in c.quests
    ensures var t, def, own := Trained(c, u, q), c.quests[q], q !in c.rentalQuests;
            && (forall x :: x in t.characters <==> own && def.characterExp != 0 && Plays(c, u, q, x))
            && (forall k :: k in t.costumes <==> own && def.costumeExp != 0 && Worn(u, q, k))
  {
    hide DeckUnits, Worn;
    UnitsAre(c, u, q);
  }

  lemma CostumeAfterTrains(c: Catalog, u: User, v: User, keys: set<string>, amount: int, k: string)
    requires v.costumes == CostumesAfter(c, u.costumes, keys, amount)
    ensures if k in keys then CostumeTrains(c, u, amount, k, v) else SameAt(u.costumes, v.costumes, k)
  {
    hide LevelOf, LevelAndCapOf, UpTo;
    var row := GetOr(u.costumes, k, Costume(0, 0, 0, 0));
    if row.costumeId in c.costumes && c.costumes[row.costumeId].rarity in c.costumeExp {
      LeveledIs(row.exp + amount, c.costumeExp[c.costumes[row.costumeId].rarity]);
    }
  }

  lemma CharacterAfterGains(c: Catalog, u: User, v: User, ids: set<int>, amount: int, x: int)
    requires v.characters == CharactersAfter(c, u.characters, ids, amount)
    ensures if x in ids then CharacterGains(c, u, amount, x, v) else SameAt(u.characters, v.characters, x)
  {
    hide LevelOf, LevelAndCapOf, UpTo;
    LeveledIs(GetOr(u.characters, x, Character(0, 0)).exp + amount, c.characterExp);
  }

  lemma ExpGains(c: Catalog, u: User, q: int, now: int)
    requires q in c.quests
    ensures Gains(c, u, q, now, ApplyExp(c, u, q, now))
  {
    hide StatusAfterExp, CharactersAfter, CostumesAfter, Trained, PlayerGains, CharacterGains, CostumeTrains, SameAt, Worn, Plays;
    var v, def, t := ApplyExp(c, u, q, now), c.quests[q], Trained(c, u, q);
    TrainedAre(c, u, q);
    StatusGains(c, u.status, def.userExp, now);
    forall x ensures if x in t.characters then CharacterGains(c, u, def.characterExp, x, v) else SameAt(u.characters, v.characters, x) {
      CharacterAfterGains(c, u, v, t.characters, def.characterExp, x);
    }
    forall k ensures if k in t.costumes then CostumeTrains(c, u, def.costumeExp, k, v) else SameAt(u.costumes, v.costumes, k) {
      CostumeAfterTrains(c, u, v, t.costumes, def.costumeExp, k);
    }
  }

  // ---- When ----

  /** Experience and gold of a quest. */
  ghost predicate Earns(c: Catalog, u: User, q: int, now: int, v: User)
    requires q in c.quests
  {
    && Gains(c, u, q, now, v)
    && v.items == if c.quests[q].gold == 0 then u.items
                  else u.items[c.goldItem := GetOr(u.items, c.goldItem, 0) + c.quests[q].gold]
  }

  predicate KeepsUnits(u: User, v: User) {
    v.characters == u.characters && v.costumes == u.costumes && v.items == u.items
  }

  lemma SameEarnings(c: Catalog, u: User, u': User, q: int, now: int, v: User, v': User)
    requires q in c.quests && Earns(c, u, q, now, v)
    requires u'.status == u.status && KeepsUnits(u, u') && forall k :: Worn(u', q, k) == Worn(u, q, k)
    requires v'.status == v.status && KeepsUnits(v, v')
    ensures Earns(c, u', q, now, v')
  {
    hide PlayerGains, Worn, SameAt;
    assert forall x :: Plays(c, u', q, x) == Plays(c, u, q, x);
    forall x ensures CharacterGains(c, u', c.quests[q].characterExp, x, v') == CharacterGains(c, u, c.quests[q].characterExp, x, v) {
    }
    forall k ensures CostumeTrains(c, u', c.quests[q].costumeExp, k, v') == CostumeTrains(c, u, c.quests[q].costumeExp, k, v) {
      hide LevelOf, UpTo, LevelCap;
    }
    hide CharacterGains, CostumeTrains, Plays;
  }

  lemma InitWorn(c: Catalog, u: User, q: int)
    ensures var v := InitQuest(c, u, q);
            v.status == u.status && KeepsUnits(u, v) && v.quests == u.quests[q := QuestOf(u, q).(id := q)]
    ensures forall k :: Worn(InitQuest(c, u, q), q, k) == Worn(u, q, k)
  {
    hide MapMissions;
  }

  lemma RewardsEarn(c: Catalog, u: User, q: int, now: int)
    requires q in c.quests && GroupKnown(c, u, q)
    ensures Earns(c, u, q, now, ApplyRewards(c, u, q, now))
  {
    hide ApplyExp, ApplyRewards, GroupKnown, Gains;
    ExpGains(c, u, q, now);
    RewardsAdd(c, u, q, now);
    ItemsApart(c, u, q, now, ApplyExp(c, u, q, now), ApplyRewards(c, u, q, now));
  }

  lemma RewardsAdd(c: Catalog, u: User, q: int, now: int)
    requires q in c.quests && GroupKnown(c, u, q)
    ensures var v, w := ApplyRewards(c, u, q, now), ApplyExp(c, u, q, now);
            && v.status == w.status && v.characters == w.characters && v.costumes == w.costumes
            && v.items == if c.quests[q].gold == 0 then u.items
                          else u.items[c.goldItem := GetOr(u.items, c.goldItem, 0) + c.quests[q].gold]
  {
    hide ApplyExp, FirstClear, GroupKnown, AddItem, Granted, GetOr;
    ExpKeeps(c, u, q, now);
    PaidOut(u, ApplyExp(c, u, q, now), c.goldItem, c.quests[q].gold, FirstClear(c, u, q), u.packages + [q]);
  }

  lemma PaidOut(u: User, w: User, item: int, gold: int, gs: seq<Grant>, packages: seq<int>)
    requires w.items == u.items
    ensures var v := Granted(if gold != 0 then AddItem(w, item, gold) else w, gs).(packages := packages);
            && v.status == w.status && v.characters == w.characters && v.costumes == w.costumes
            && v.items == if gold == 0 then u.items else u.items[item := GetOr(u.items, item, 0) + gold]
  {
  }

  lemma ItemsApart(c: Catalog, u: User, q: int, now: int, v: User, w: User)
    requires q in c.quests && Gains(c, u, q, now, v)
    requires w.status == v.status && w.characters == v.characters && w.costumes == v.costumes
    ensures Gains(c, u, q, now, w)
  {
    hide PlayerGains, Worn, Plays;
    forall x ensures CharacterGains(c, u, c.quests[q].characterExp, x, w) == CharacterGains(c, u, c.quests[q].characterExp, x, v) {
    }
    forall k ensures CostumeTrains(c, u, c.quests[q].costumeExp, k, w) == CostumeTrains(c, u, c.quests[q].costumeExp, k, v) {
      hide LevelOf, UpTo, LevelCap;
    }
    hide CharacterGains, CostumeTrains, SameAt;
  }

  /** What a finish gives at once: on the first victory the quest's experience and gold; on later ones, and on a
      retreat, neither. */
  ghost predicate FinishGives(c: Catalog, u: User, q: int, retired: bool, now: int, v: User)
    requires q in c.quests
  {
    if !retired && !QuestOf(u, q).rewardGranted then Earns(c, u, q, now, v)
    else KeepsUnits(u, v) && (!retired ==> v.status == u.status)
  }

  lemma FinishEarns(c: Catalog, u: User, a: Action)
    requires Finishes(a) && Enabled(c, u, a)
    ensures a.q in c.quests && FinishGives(c, u, a.q, a.retired, a.now, Step(c, u, a))
  {
    hide Finished, SideFinished, ClearMissions, CanEvaluate, FinishGives;
    EvaluateKnown(c, Evaluated(c, u, a), a.q);
    if a.Finish? {
      MainFinishEarns(c, u, a);
    } else {
      SideFinishEarns(c, u, a);
    }
  }

  lemma ResolvedEarns(c: Catalog, u: User, q: int, retired: bool, now: int)
    requires CanEvaluate(c, u, q)
    ensures FinishGives(c, u, q, retired, now, Resolved(c, u, q, retired, now))
  {
    hide Evaluate, GroupKnown, ApplyRewards, Gains, Worn;
    if !retired && !u.quests[q].rewardGranted {
      RewardsEarn(c, u, q, now);
      SameEarnings(c, u, u, q, now, ApplyRewards(c, u, q, now), Resolved(c, u, q, retired, now));
    }
  }

  /** What was given stays given through the rest of a finish, which changes status only on a retreat. */
  lemma StillGiven(c: Catalog, u: User, u': User, q: int, retired: bool, now: int, v: User, v': User)
    requires q in c.quests && FinishGives(c, u, q, retired, now, v)
    requires u'.status == u.status && KeepsUnits(u, u') && QuestOf(u', q).rewardGranted == QuestOf(u, q).rewardGranted
    requires forall k :: Worn(u', q, k) == Worn(u, q, k)
    requires KeepsUnits(v, v') && (!retired ==> v'.status == v.status)
    ensures FinishGives(c, u', q, retired, now, v')
  {
    hide Earns, Worn;
    if !retired && !QuestOf(u, q).rewardGranted {
      SameEarnings(c, u, u', q, now, v, v');
    }
  }

  lemma SideFinishEarns(c: Catalog, u: User, a: Action)
    requires a.SideFinish?() && CanEvaluate(c, u, a.q) && a.q in c.quests && Enabled(c, u, a)
    ensures FinishGives(c, u, a.q, a.retired, a.now, Step(c, u, a))
  {
    hide Resolved, Refunded, CanEvaluate, MapMissions, FinishGives, Worn;
    ResolvedEarns(c, u, a.q, a.retired, a.now);
    var v := Resolved(c, u, a.q, a.retired, a.now);
    RefundKeeps(c, v, a.q, a.retired, a.annihilated, a.now);
    WonKeepsStatus(c, v, a.q, a.annihilated, a.now);
    StillGiven(c, u, u, a.q, a.retired, a.now, v, Step(c, u, a));
  }

  lemma WonKeepsStatus(c: Catalog, u: User, q: int, annihilated: bool, now: int)
    requires q in c.quests
    ensures Refunded(c, u, q, false, annihilated, now) == u
  {
  }

  lemma MainFinishEarns(c: Catalog, u: User, a: Action)
    requires a.Finish? && CanFinish(c, u, a.q, a.retired) && a.q in c.quests
    ensures FinishGives(c, u, a.q, a.retired, a.now, Finished(c, u, a.q, a.retired, a.annihilated, a.now, a.clock))
  {
    hide InitQuest, Resolved, Refunded, Reclosed, FlowEnded, Advance, CanEvaluate, MapMissions, FinishGives, Worn, QuestOf, KeepsUnits;
    var q := a.q;
    var v := InitQuest(c, u, q);
    InitWorn(c, u, q);
    InitPaid(c, u, q);
    EvaluateKnown(c, v, q);
    var wasReplay, wasMenuReplay := u.main.flow == ReplayFlow, u.main.saved.active;
    var moves := !a.retired && c.Playable(q) && !wasReplay && !wasMenuReplay;
    LastSceneKnown(c, q);
    WonEarns(c, v, q, a, moves);
    var won := Resolved(c, v, q, a.retired, a.now);
    var moved := if moves then Advance(c, won, q, c.Scenes(q)[|c.Scenes(q)| - 1], a.clock) else won;
    EndingKeepsUnits(c, moved, q, a.retired, a.annihilated, wasReplay, wasMenuReplay, a.now);
    var ended := FlowEnded(Reclosed(Refunded(c, moved, q, a.retired, a.annihilated, a.now), q, a.retired), wasReplay, wasMenuReplay, a.now);
    MissionsKeepUnits(c, moved, ended, q, a.now);
    StillGiven(c, v, u, q, a.retired, a.now, moved, ClearMissions(c, ended, q, a.now));
  }

  lemma InitPaid(c: Catalog, u: User, q: int)
    ensures InitQuest(c, u, q).main == u.main && QuestOf(InitQuest(c, u, q), q).rewardGranted == QuestOf(u, q).rewardGranted
    ensures KeepsUnits(InitQuest(c, u, q), u)
  {
    hide MapMissions;
  }

  lemma MissionsKeepUnits(c: Catalog, u: User, v: User, q: int, now: int)
    requires KeepsUnits(u, v)
    ensures KeepsUnits(u, ClearMissions(c, v, q, now)) && ClearMissions(c, v, q, now).status == v.status
  {
    hide MapMissions;
  }

  lemma WonEarns(c: Catalog, u: User, q: int, a: Action, moves: bool)
    requires a.Finish? && CanEvaluate(c, u, q)
    requires moves ==> c.Scenes(q) != []
    requires moves ==> CanAdvance(c, Resolved(c, u, q, a.retired, a.now), q, c.Scenes(q)[|c.Scenes(q)| - 1])
    ensures var won := Resolved(c, u, q, a.retired, a.now);
            var v := if moves then Advance(c, won, q, c.Scenes(q)[|c.Scenes(q)| - 1], a.clock) else won;
            FinishGives(c, u, q, a.retired, a.now, v)
  {
    hide Resolved, Advance, CanEvaluate, CanAdvance, FinishGives, Worn;
    EvaluateKnown(c, u, q);
    ResolvedEarns(c, u, q, a.retired, a.now);
    if moves {
      var won := Resolved(c, u, q, a.retired, a.now);
      AdvanceMoves(c, won, q, c.Scenes(q)[|c.Scenes(q)| - 1], a.clock);
      StillGiven(c, u, u, q, a.retired, a.now, won, Advance(c, won, q, c.Scenes(q)[|c.Scenes(q)| - 1], a.clock));
    }
  }

  lemma EndingKeepsUnits(c: Catalog, u: User, q: int, retired: bool, annihilated: bool, wasReplay: bool, held: bool, now: int)
    requires q in c.quests
    ensures var v := FlowEnded(Reclosed(Refunded(c, u, q, retired, annihilated, now), q, retired), wasReplay, held, now);
            KeepsUnits(u, v) && (!retired ==> v.status == u.status)
  {
    hide Refunded, Reclosed, FlowEnded;
    RefundKeeps(c, u, q, retired, annihilated, now);
    WonKeepsStatus(c, u, q, annihilated, now);
    var w := Refunded(c, u, q, retired, annihilated, now);
    ReclosedKeeps(w, q, retired);
    FlowEndedStory(Reclosed(w, q, retired), wasReplay, held, now);
  }

  // ---- Skips ----

  /** The list n times over. */
  function Times<T>(xs: seq<T>, n: nat): seq<T> {
    if n == 0 then [] else Times(xs, n - 1) + xs
  }

  predicate SameDecks(u: User, v: User) {
    v.quests == u.quests && v.decks == u.decks && v.deckCostumes == u.deckCostumes
  }

  /** v comes from u by n earnings of the quest. */
  ghost predicate EarnsTimes(c: Catalog, u: User, q: int, n: nat, now: int, v: User)
    requires q in c.quests
  {
    if n == 0 then v.status == u.status && KeepsUnits(u, v)
    else exists w :: SameDecks(u, w) && EarnsTimes(c, u, q, n - 1, now, w) && Earns(c, w, q, now, v)
  }

  /** What a skip costs: its count in stamina and in tickets, neither below none, before anything is gained. */
  predicate SkipCosts(c: Catalog, u: User, count: int, now: int, v: User) {
    && v.status == u.status.(staminaMilli := Max(StaminaNow(c, u.status, now) - 1000 * count, 0), staminaUpdated := now)
    && v.items == u.items[c.skipTicketItem := Max(GetOr(u.items, c.skipTicketItem, 0) - count, 0)]
    && v.characters == u.characters && v.costumes == u.costumes && SameDecks(u, v)
  }

  lemma SkipPaidCosts(c: Catalog, u: User, count: int, now: int)
    ensures SkipCosts(c, u, count, now, SkipPaid(c, u, count, now))
    ensures SkipPaid(c, u, count, now).granted == u.granted
  {
  }

  lemma SkipOnceEarns(c: Catalog, u: User, q: int, now: int)
    requires q in c.quests
    ensures var v := SkipOnce(c, u, q, now);
            Earns(c, u, q, now, v) && SameDecks(u, v) && v.granted == u.granted + Drops(c, c.quests[q])
  {
    hide ApplyExp, Drops, Gains, Worn;
    var d := Granted(u, Drops(c, c.quests[q]));
    var w := if c.quests[q].gold != 0 then AddItem(d, c.goldItem, c.quests[q].gold) else d;
    var v := ApplyExp(c, w, q, now);
    ExpGains(c, w, q, now);
    ExpKeeps(c, w, q, now);
    SameGains(c, w, u, q, now, v);
  }

  lemma SameGains(c: Catalog, u: User, u': User, q: int, now: int, v: User)
    requires q in c.quests && Gains(c, u, q, now, v)
    requires u'.status == u.status && u'.characters == u.characters && u'.costumes == u.costumes && SameDecks(u, u')
    ensures Gains(c, u', q, now, v)
  {
    hide PlayerGains, SameAt, LevelOf, UpTo, LevelCap;
    assert forall k :: Worn(u', q, k) == Worn(u, q, k);
    hide Worn;
    assert forall x :: Plays(c, u', q, x) == Plays(c, u, q, x);
    forall x ensures CharacterGains(c, u', c.quests[q].characterExp, x, v) == CharacterGains(c, u, c.quests[q].characterExp, x, v) {
    }
    forall k ensures CostumeTrains(c, u', c.quests[q].costumeExp, k, v) == CostumeTrains(c, u, c.quests[q].costumeExp, k, v) {
    }
    hide CharacterGains, CostumeTrains, Plays;
  }

  lemma {:induction false} SkipRunsEarn(c: Catalog, u: User, q: int, n: nat, now: int)
    requires q in c.quests
    ensures var v := SkipRuns(c, u, q, n, now);
            EarnsTimes(c, u, q, n, now, v) && SameDecks(u, v) && v.granted == u.granted + Times(Drops(c, c.quests[q]), n)
  {
    hide SkipOnce, Drops, Earns;
    if n > 0 {
      SkipRunsEarn(c, u, q, n - 1, now);
      SkipOnceEarns(c, SkipRuns(c, u, q, n - 1, now), q, now);
    }
  }

  /** A skip pays for its runs first, then earns each of them in turn, drops included. A count below one earns nothing
      and still takes its tickets and stamina, which for a negative count gives them back. */
  lemma SkipEarns(c: Catalog, u: User, a: Action)
    requires a.Skip? && Enabled(c, u, a)
    ensures var n: nat := if a.count < 0 then 0 else a.count;
            && (exists p :: SkipCosts(c, u, a.count, a.now, p) && EarnsTimes(c, p, a.q, n, a.now, Step(c, u, a)))
            && Step(c, u, a).granted == u.granted + Times(Drops(c, c.quests[a.q]), n)
  {
    hide SkipPaid, SkipRuns, Drops, Earns, SkipCosts;
    var n: nat := if a.count < 0 then 0 else a.count;
    var p := SkipPaid(c, u, a.count, a.now);
    SkipPaidCosts(c, u, a.count, a.now);
    SkipRunsEarn(c, p, a.q, n, a.now);
    SameTimes(c, p, a.q, n, a.now, SkipRuns(c, p, a.q, n, a.now), Step(c, u, a));
  }

  lemma SameTimes(c: Catalog, u: User, q: int, n: nat, now: int, v: User, v': User)
    requires q in c.quests && EarnsTimes(c, u, q, n, now, v)
    requires v'.status == v.status && KeepsUnits(v, v')
    ensures EarnsTimes(c, u, q, n, now, v')
  {
    hide Earns, Worn;
    if n > 0 {
      var w :| SameDecks(u, w) && EarnsTimes(c, u, q, n - 1, now, w) && Earns(c, w, q, now, v);
      SameEarnings(c, w, w, q, now, v, v');
    }
  }

  /** Gold over the runs. */
  lemma {:induction false} GoldTimes(c: Catalog, u: User, q: int, n: nat, now: int, v: User)
    requires q in c.quests && EarnsTimes(c, u, q, n, now, v)
    ensures GetOr(v.items, c.goldItem, 0) == GetOr(u.items, c.goldItem, 0) + n * c.quests[q].gold
    ensures forall item :: item != c.goldItem ==> GetOr(v.items, item, 0) == GetOr(u.items, item, 0)
  {
    hide Gains, Worn;
    if n > 0 {
      assert n * c.quests[q].gold == (n - 1) * c.quests[q].gold + c.quests[q].gold;
      var w :| SameDecks(u, w) && EarnsTimes(c, u, q, n - 1, now, w) && Earns(c, w, q, now, v);
      GoldTimes(c, u, q, n - 1, now, w);
    }
  }
}
