/** event_quest.go, extra_quest.go and bighunt_quest.go: the quests off the main flow. */
module SideQuests {
  import opened Wrappers
  import opened Store
  import opened Stamina
  import opened Masterdata
  import opened QuestFlow
  import opened QuestRewards
  import opened QuestMain
  import opened QuestProgress

  /** The lines the three starts share; extra and big hunt quests leave the battle-only flag alone. */
  method StartSideQuest(c: Catalog, user: UserState, q: int, battleOnly: Option<bool>, deck: int, now: int)
    requires q in c.quests
    modifies user
    ensures user.View() == SideStarted(c, old(user.View()), q, battleOnly, deck, now)
  {
    hide MapMissions, Consumed;
    InitQuestState(c, user, q);
    PayForQuest(c, user, q, now);
    var questState := user.quests[q];
    if battleOnly.Some? {
      questState := questState.(battleOnly := battleOnly.value);
    }
    questState := questState.(deck := deck);
    questState := questState.(state := Active);
    questState := questState.(started := now);
    user.quests := user.quests[q := questState];
  }

  /** The lines the three finishes share. */
  method FinishSideQuest(c: Catalog, user: UserState, q: int, isRetired: bool, isAnnihilated: bool, now: int)
    returns (outcome: Outcome)
    requires CanEvaluate(c, user.View(), q)
    modifies user
    ensures outcome == Evaluate(c, old(user.View()), q)
    ensures user.View() == SideFinished(c, old(user.View()), q, isRetired, isAnnihilated, now)
  {
    hide Evaluate, Victory, Refunded, GroupKnown;
    outcome := EvaluateFinishOutcome(c, user, q);
    if !isRetired {
      ApplyQuestVictory(c, user, q, outcome, now);
    }
    RefundStamina(c, user, q, isRetired, isAnnihilated, now);
  }

  method HandleEventQuestStart(c: Catalog, user: UserState, chapter: int, q: int, battleOnly: bool, deck: int, now: int)
    requires q in c.quests
    modifies user
    ensures user.View() == EventStarted(c, old(user.View()), chapter, q, battleOnly, deck, now)
  {
    hide SideStarted;
    StartSideQuest(c, user, q, Some(battleOnly), deck, now);
    user.event := user.event.(chapter := chapter);
    user.event := user.event.(questId := q);
    var sceneIds := c.Scenes(q);
    if |sceneIds| > 0 {
      user.event := user.event.(scene := sceneIds[0]);
      user.event := user.event.(head := sceneIds[0]);
    }
  }

  method HandleEventQuestFinish(c: Catalog, user: UserState, q: int, isRetired: bool, isAnnihilated: bool, now: int)
    returns (outcome: Outcome)
    requires CanEvaluate(c, user.View(), q)
    modifies user
    ensures outcome == Evaluate(c, old(user.View()), q)
    ensures user.View() == EventFinished(c, old(user.View()), q, isRetired, isAnnihilated, now)
  {
    hide Evaluate, SideFinished, MapMissions;
    outcome := FinishSideQuest(c, user, q, isRetired, isAnnihilated, now);
    user.event := user.event.(chapter := 0);
    user.event := user.event.(questId := 0);
    user.event := user.event.(scene := 0);
    user.event := user.event.(head := 0);
    user.event := user.event.(version := now);
    ClearQuestMissions(c, user, q, now);
  }

  method HandleEventQuestRestart(c: Catalog, user: UserState, chapter: int, q: int, now: int)
    modifies user
    ensures user.View() == EventRestarted(c, old(user.View()), chapter, q, now)
  {
    hide RestartedQuest;
    HandleQuestRestart(c, user, q, now);
    user.event := user.event.(chapter := chapter);
    user.event := user.event.(questId := q);
  }

  method ApplySceneEffects(c: Catalog, user: UserState, scene: int, now: int)
    requires scene in c.scenes
    modifies user
    ensures user.View() == SceneEffects(c, old(user.View()), scene, now)
  {
    hide MapMissions;
    ApplySceneGrants(c, user, scene);
    if c.scenes[scene].result == HalfResult {
      ClearQuestMissions(c, user, c.scenes[scene].questId, now);
    }
  }

  method HandleEventQuestSceneProgress(c: Catalog, user: UserState, scene: int, now: int)
    modifies user
    ensures user.View() == EventProgressed(c, old(user.View()), scene, now)
  {
    hide SceneEffects;
    if scene !in c.scenes {
      return;
    }
    user.event := user.event.(scene := scene);
    if Ahead(c, scene, user.event.head) {
      user.event := user.event.(head := scene);
    }
    ApplySceneEffects(c, user, scene, now);
  }

  method HandleExtraQuestStart(c: Catalog, user: UserState, q: int, deck: int, now: int)
    requires q in c.quests
    modifies user
    ensures user.View() == ExtraStarted(c, old(user.View()), q, deck, now)
  {
    hide SideStarted;
    StartSideQuest(c, user, q, None, deck, now);
    user.extra := user.extra.(questId := q);
    var sceneIds := c.Scenes(q);
    if |sceneIds| > 0 {
      user.extra := user.extra.(scene := sceneIds[0]);
      user.extra := user.extra.(head := sceneIds[0]);
    }
  }

  method HandleExtraQuestFinish(c: Catalog, user: UserState, q: int, isRetired: bool, isAnnihilated: bool, now: int)
    returns (outcome: Outcome)
    requires CanEvaluate(c, user.View(), q)
    modifies user
    ensures outcome == Evaluate(c, old(user.View()), q)
    ensures user.View() == ExtraFinished(c, old(user.View()), q, isRetired, isAnnihilated, now)
  {
    hide Evaluate, SideFinished, MapMissions;
    outcome := FinishSideQuest(c, user, q, isRetired, isAnnihilated, now);
    user.extra := user.extra.(questId := 0);
    user.extra := user.extra.(scene := 0);
    user.extra := user.extra.(head := 0);
    ClearQuestMissions(c, user, q, now);
  }

  method HandleExtraQuestRestart(c: Catalog, user: UserState, q: int, now: int)
    modifies user
    ensures user.View() == ExtraRestarted(c, old(user.View()), q, now)
  {
    hide RestartedQuest;
    HandleQuestRestart(c, user, q, now);
    user.extra := user.extra.(questId := q);
  }

  method HandleExtraQuestSceneProgress(c: Catalog, user: UserState, scene: int, now: int)
    modifies user
    ensures user.View() == ExtraProgressed(c, old(user.View()), scene, now)
  {
    hide SceneEffects;
    if scene !in c.scenes {
      return;
    }
    user.extra := user.extra.(scene := scene);
    if Ahead(c, scene, user.extra.head) {
      user.extra := user.extra.(head := scene);
    }
    ApplySceneEffects(c, user, scene, now);
  }

  method HandleBigHuntQuestStart(c: Catalog, user: UserState, q: int, deck: int, now: int)
    requires q in c.quests
    modifies user
    ensures user.View() == HuntStarted(c, old(user.View()), q, deck, now)
  {
    StartSideQuest(c, user, q, None, deck, now);
  }

  method HandleBigHuntQuestFinish(c: Catalog, user: UserState, q: int, isRetired: bool, isAnnihilated: bool, now: int)
    returns (outcome: Outcome)
    requires CanEvaluate(c, user.View(), q)
    modifies user
    ensures outcome == Evaluate(c, old(user.View()), q)
    ensures user.View() == HuntFinished(c, old(user.View()), q, isRetired, isAnnihilated, now)
  {
    hide Evaluate, SideFinished, MapMissions;
    outcome := FinishSideQuest(c, user, q, isRetired, isAnnihilated, now);
    ClearQuestMissions(c, user, q, now);
  }
}
