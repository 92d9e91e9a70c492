/** rewards.go and the bookkeeping it shares with quest.go: outcomes, experience, first-clear packages.
    Each method updates the user record field by field and is proved to do what its function in
    QuestFlow.dfy says, to every field. */
module QuestRewards {
  import opened Wrappers
  import opened Store
  import opened Stamina
  import opened Experience
  import opened Masterdata
  import opened QuestFlow

  // ---- Missions ----

  method InitQuestState(c: Catalog, user: UserState, q: int)
    modifies user
    ensures user.View() == InitQuest(c, old(user.View()), q)
  {
    var quest := GetOr(user.quests, q, NO_QUEST);
    quest := quest.(id := q);
    user.quests := user.quests[q := quest];

    var ids := c.MissionIds(q);
    var i := 0;
    while i < |ids|
      invariant i <= |ids|
      invariant user.missions == MapMissions(old(user.missions), q, ids[..i], Named(q))
      invariant user.View() == InitQuest(c, old(user.View()), q).(missions := user.missions)
    {
      var key := (q, ids[i]);
      var mission := GetOr(user.missions, key, NO_MISSION);
      mission := mission.(questId := q);
      mission := mission.(missionId := ids[i]);
      user.missions := user.missions[key := mission];
      assert ids[..i + 1][..i] == ids[..i];
      i := i + 1;
    }
    assert ids[..i] == ids;
  }

  method ClearQuestMissions(c: Catalog, user: UserState, q: int, now: int)
    modifies user`missions
    ensures user.View() == ClearMissions(c, old(user.View()), q, now)
  {
    var ids := c.MissionIds(q);
    var i := 0;
    while i < |ids|
      invariant i <= |ids|
      invariant user.missions == MapMissions(old(user.missions), q, ids[..i], ClearedAt(now))
    {
      var key := (q, ids[i]);
      var mission := GetOr(user.missions, key, NO_MISSION);
      mission := mission.(clear := true);
      mission := mission.(progress := 1);
      mission := mission.(lastClear := now);
      user.missions := user.missions[key := mission];
      assert ids[..i + 1][..i] == ids[..i];
      i := i + 1;
    }
    assert ids[..i] == ids;
  }

  /** Hands the grants to the granter, one by one. */
  method GrantAll(user: UserState, grants: seq<Grant>)
    modifies user`granted
    ensures user.granted == old(user.granted) + grants
  {
    var i := 0;
    while i < |grants|
      invariant i <= |grants|
      invariant user.granted == old(user.granted) + grants[..i]
    {
      user.granted := user.granted + [grants[i]];
      i := i + 1;
    }
  }

  // ---- Rewards ----

  method FirstClearRewardGroupId(c: Catalog, user: UserState, q: int) returns (group: int)
    requires q in c.quests && GroupKnown(c, user.View(), q)
    ensures group == FirstClearGroup(c, user.View(), q)
  {
    group := c.quests[q].firstClearGroup;
    var rows := GetOr(c.switches, q, []);
    var i := 0;
    while i < |rows|
      invariant i <= |rows|
      invariant SwitchesKnown(user.View(), rows[i..])
      invariant SwitchedGroup(user.View(), rows, group) == SwitchedGroup(user.View(), rows[i..], group)
      invariant group == c.quests[q].firstClearGroup
    {
      assert rows[i..][1..] == rows[i + 1..];
      if user.quests[rows[i].conditionQuest].state == Cleared {
        group := rows[i].group;
        return;
      }
      i := i + 1;
    }
  }

  method ComputeDropRewards(c: Catalog, def: QuestDef) returns (drops: seq<Grant>)
    ensures drops == Drops(c, def)
  {
    drops := [];
    if def.pickupGroup == 0 {
      return;
    }
    var ids := GetOr(c.pickups, def.pickupGroup, []);
    var i := 0;
    while i < |ids|
      invariant i <= |ids|
      invariant drops == DropsOf(c, ids[..i])
    {
      if ids[i] in c.battleDrops {
        drops := drops + [c.battleDrops[ids[i]]];
      }
      assert ids[..i + 1][..i] == ids[..i];
      i := i + 1;
    }
    assert ids[..i] == ids;
  }

  method EvaluateFinishOutcome(c: Catalog, user: UserState, q: int) returns (outcome: Outcome)
    requires CanEvaluate(c, user.View(), q)
    ensures outcome == Evaluate(c, user.View(), q)
  {
    var def := c.quests[q];
    var firstClear: seq<Grant> := [];
    if !user.quests[q].rewardGranted {
      var group := FirstClearRewardGroupId(c, user, q);
      firstClear := GetOr(c.firstClearRewards, group, []);
    }
    var replay: seq<Grant> := [];
    if user.main.flow == ReplayFlow && def.replayGroup > 0 {
      replay := GetOr(c.replayRewards, def.replayGroup, []);
    }

    var ids := c.MissionIds(q);
    var pending, regular := 0, 0;
    var clearRewards: seq<Grant> := [];
    var i := 0;
    while i < |ids|
      invariant i <= |ids| && 0 <= pending <= regular
      invariant regular > 0 <==> AnyRegular(c, ids[..i])
      invariant clearRewards == RegularRewards(c, user.View(), q, ids[..i])
    {
      var id := ids[i];
      if id in c.missions && !c.missions[id].isComplete {
        regular := regular + 1;
        if !GetOr(user.missions, (q, id), NO_MISSION).clear {
          pending := pending + 1;
          clearRewards := clearRewards + GetOr(c.missionRewards, c.missions[id].rewardId, []);
        }
      }
      assert ids[..i + 1][..i] == ids[..i];
      i := i + 1;
    }
    assert ids[..i] == ids;

    var prior := regular - pending;
    var completeRewards: seq<Grant>, wins: seq<int> := [], [];
    var isBigWin := false;
    if regular > 0 && prior + pending == regular {
      completeRewards, wins := CompleteOutcome(c, user, q, ids);
      isBigWin := |wins| > 0;
    }
    var drops := ComputeDropRewards(c, def);
    outcome := Outcome(drops, firstClear, replay, clearRewards, completeRewards, wins, isBigWin);
  }

  method CompleteOutcome(c: Catalog, user: UserState, q: int, ids: seq<int>) returns (rewards: seq<Grant>, wins: seq<int>)
    ensures rewards == CompleteRewards(c, user.View(), q, ids)
    ensures wins == BigWins(c, user.View(), q, ids)
  {
    rewards, wins := [], [];
    var i := 0;
    while i < |ids|
      invariant i <= |ids|
      invariant rewards == CompleteRewards(c, user.View(), q, ids[..i])
      invariant wins == BigWins(c, user.View(), q, ids[..i])
    {
      var id := ids[i];
      if id in c.missions && c.missions[id].isComplete {
        if !GetOr(user.missions, (q, id), NO_MISSION).clear {
          rewards := rewards + GetOr(c.missionRewards, c.missions[id].rewardId, []);
          wins := wins + [id];
        }
      }
      assert ids[..i + 1][..i] == ids[..i];
      i := i + 1;
    }
    assert ids[..i] == ids;
  }

  // ---- Experience ----

  method GainCharacters(c: Catalog, user: UserState, ids: set<int>, amount: int)
    modifies user`characters
    ensures user.characters == CharactersAfter(c, old(user.characters), ids, amount)
  {
    ghost var before := user.characters;
    var rest, done: set<int> := ids, {};
    assert before == CharactersAfter(c, before, {}, amount);
    while rest != {}
      invariant done + rest == ids && done !! rest
      invariant user.characters == CharactersAfter(c, before, done, amount)
      decreases rest
    {
      SomeInt(rest);
      var id: int :| id in rest;
      var row := GetOr(user.characters, id, Character(0, 0));
      assert row == GetOr(before, id, Character(0, 0));
      row := row.(exp := row.exp + amount);
      var level, exp := LevelAndCap(row.exp, c.characterExp);
      row := row.(level := level, exp := exp);
      user.characters := user.characters[id := row];
      done, rest := done + {id}, rest - {id};
    }
    assert done == ids;
  }

  method GainCostumes(c: Catalog, user: UserState, keys: set<string>, amount: int)
    modifies user`costumes
    ensures user.costumes == CostumesAfter(c, old(user.costumes), keys, amount)
  {
    ghost var before := user.costumes;
    var rest, done: set<string> := keys, {};
    assert before == CostumesAfter(c, before, {}, amount);
    while rest != {}
      invariant done + rest == keys && done !! rest
      invariant user.costumes == CostumesAfter(c, before, done, amount)
      decreases rest
    {
      var key :| key in rest;
      var row := GetOr(user.costumes, key, NO_COSTUME);
      assert row == GetOr(before, key, NO_COSTUME);
      if row.costumeId in c.costumes {
        var skipped;
        row, skipped := GainCostumeExp(row, amount, c.Rules(c.costumes[row.costumeId], row.limitBreak));
        if !skipped {
          user.costumes := user.costumes[key := row];
        }
      }
      done, rest := done + {key}, rest - {key};
    }
    assert done == keys;
  }

  method ApplyExpRewards(c: Catalog, user: UserState, q: int, now: int)
    modifies user
    ensures user.View() == ApplyExp(c, old(user.View()), q, now)
  {
    hide CharactersAfter, CostumesAfter, LevelAndCapOf, DeckUnits;
    NobodyTrained(c, user.View());
    if q !in c.quests {
      return;
    }
    var def := c.quests[q];
    var oldLevel := user.status.level;
    user.status := user.status.(exp := user.status.exp + def.userExp);
    var level, exp := LevelAndCap(user.status.exp, c.userExp);
    user.status := user.status.(level := level, exp := exp);
    if user.status.level > oldLevel {
      if user.status.level in c.maxStamina {
        ReplenishStamina(user, c.maxStamina[user.status.level] * 1000, now);
      }
    }
    if q in c.rentalQuests {
      return;
    }
    var units := ResolveDeckUnits(c, user, q);
    DeckUnitsAfterStatus(c, old(user.View()), user.status, q);
    if units.None? {
      return;
    }
    if def.characterExp != 0 {
      GainCharacters(c, user, units.value.characters, def.characterExp);
    }
    if def.costumeExp != 0 {
      GainCostumes(c, user, units.value.costumes, def.costumeExp);
    }
  }

  lemma NobodyTrained(c: Catalog, u: User)
    ensures forall n :: CharactersAfter(c, u.characters, {}, n) == u.characters
    ensures forall n :: CostumesAfter(c, u.costumes, {}, n) == u.costumes
  {
  }

  lemma DeckUnitsAfterStatus(c: Catalog, u: User, status: Status, q: int)
    ensures DeckUnits(c, u.(status := status), q) == DeckUnits(c, u, q)
  {
  }

  method ResolveDeckUnits(c: Catalog, user: UserState, q: int) returns (units: Option<Units>)
    ensures units == DeckUnits(c, user.View(), q)
  {
    var number := GetOr(user.quests, q, NO_QUEST).deck;
    if number == 0 || number !in user.decks {
      return None;
    }
    var deck := user.decks[number];
    var members := [deck.member1, deck.member2, deck.member3];
    var worn: set<string>, characters: set<int> := {}, {};
    ghost var seen: set<string> := {};
    var i := 0;
    while i < 3
      invariant i <= 3
      invariant seen == (set j | 0 <= j < i :: members[j])
      invariant worn == (set m | m in seen && m != "" && m in user.deckCostumes && user.deckCostumes[m] != "" :: user.deckCostumes[m])
      invariant characters == (set k | k in worn && k in user.costumes && user.costumes[k].costumeId in c.costumes
                                 :: c.costumes[user.costumes[k].costumeId].characterId)
    {
      var m := members[i];
      seen := seen + {m};
      i := i + 1;
      if m == "" || m !in user.deckCostumes || user.deckCostumes[m] == "" {
        continue;
      }
      var key := user.deckCostumes[m];
      worn := worn + {key};
      if key in user.costumes && user.costumes[key].costumeId in c.costumes {
        characters := characters + {c.costumes[user.costumes[key].costumeId].characterId};
      }
    }
    assert forall m :: m in seen <==> m in {deck.member1, deck.member2, deck.member3} by {
      assert members[0] in seen && members[1] in seen && members[2] in seen;
    }
    assert worn == set m | m in Members(deck) && m in user.deckCostumes && user.deckCostumes[m] != "" :: user.deckCostumes[m];
    if worn == {} {
      return None;
    }
    units := Some(Units(worn, characters));
  }

  method ApplyQuestRewards(c: Catalog, user: UserState, q: int, now: int)
    requires q in c.quests && GroupKnown(c, user.View(), q)
    modifies user
    ensures user.View() == ApplyRewards(c, old(user.View()), q, now)
  {
    hide ApplyExp, GroupKnown, FirstClearGroup;
    var def := c.quests[q];
    ApplyExpRewards(c, user, q, now);
    ExpKeeps(c, old(user.View()), q, now);
    if def.gold != 0 {
      user.items := user.items[c.goldItem := GetOr(user.items, c.goldItem, 0) + def.gold];
    }
    SameQuestsSameGroup(c, old(user.View()), user.View(), q);
    var group := FirstClearRewardGroupId(c, user, q);
    GrantAll(user, GetOr(c.firstClearRewards, group, []));
    user.packages := user.packages + [q];
  }

  method ApplyQuestVictory(c: Catalog, user: UserState, q: int, outcome: Outcome, now: int)
    requires CanEvaluate(c, user.View(), q)
    modifies user
    ensures user.View() == Victory(c, old(user.View()), q, outcome, now)
  {
    hide ApplyRewards, GroupKnown;
    var quest := user.quests[q];
    if !quest.rewardGranted {
      ApplyQuestRewards(c, user, q, now);
      RewardsKeep(c, old(user.View()), q, now);
      quest := quest.(rewardGranted := true);
    }
    ghost var paid := user.granted;
    GrantAll(user, outcome.drops);
    GrantAll(user, outcome.replay);
    assert paid + outcome.drops + outcome.replay == paid + (outcome.drops + outcome.replay);
    quest := quest.(state := Cleared);
    quest := quest.(clears := quest.clears + 1, dailyClears := quest.dailyClears + 1);
    quest := quest.(lastClear := now);
    quest := quest.(battleOnly := false);
    user.quests := user.quests[q := quest];
  }

  lemma {:induction false} SameQuestsSameSwitch(u: User, v: User, rows: seq<Switch>, group: int)
    requires u.quests == v.quests && SwitchesKnown(u, rows)
    ensures SwitchesKnown(v, rows) && SwitchedGroup(v, rows, group) == SwitchedGroup(u, rows, group)
  {
    if rows != [] && !IsCleared(u, rows[0].conditionQuest) {
      SameQuestsSameSwitch(u, v, rows[1..], group);
    }
  }

  /** The first-clear group depends on the quests only: experience and gold paid out in between do not change it. */
  lemma SameQuestsSameGroup(c: Catalog, u: User, v: User, q: int)
    requires u.quests == v.quests && q in c.quests && GroupKnown(c, u, q)
    ensures GroupKnown(c, v, q) && FirstClearGroup(c, v, q) == FirstClearGroup(c, u, q)
  {
    SameQuestsSameSwitch(u, v, GetOr(c.switches, q, []), c.quests[q].firstClearGroup);
  }
}
