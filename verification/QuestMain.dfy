/** quest.go: start, replay and menu pick, finish, skip, restart, and the quests a chain leaves behind. */
module QuestMain {
  import opened Store
  import opened Stamina
  import opened Masterdata
  import opened QuestFlow
  import opened QuestRewards
  import opened QuestScenes

  method SnapshotMainQuestIfNeeded(user: UserState)
    modifies user`main
    ensures user.main == old(user.main.(saved := SavedAfter(user.View())))
  {
    if user.main.saved.active {
      return;
    }
    user.main := user.main.(saved := SavedContext(
      true, user.main.scene, user.main.head, user.main.route, user.main.season,
      user.main.reachedLast, user.cage.inProgress));
  }

  method PayForQuest(c: Catalog, user: UserState, q: int, now: int)
    requires q in c.quests
    modifies user`status
    ensures user.View() == PayStamina(c, old(user.View()), q, now)
  {
    if c.quests[q].stamina > 0 {
      ConsumeStamina(user, c.quests[q].stamina, c.MaxStaminaMilli(user.status.level), now);
    }
  }

  /** The switch in handleQuestStartInternal. */
  method EnterReplayFlow(c: Catalog, user: UserState, q: int, cleared: bool, battleOnly: bool, mainFlow: bool, replay: bool, now: int)
    requires cleared == QuestOf(user.View(), q).state.Cleared?
    modifies user
    ensures user.View() == EnterReplay(c, old(user.View()), q, battleOnly, mainFlow, replay, now)
  {
    var isMenuPick := !replay && !mainFlow && (cleared || q in c.withDifficulty);
    if isMenuPick {
      SnapshotMainQuestIfNeeded(user);
      var scene := MenuPickScene(c, q, battleOnly);
      user.main := user.main.(progressScene := scene);
      user.main := user.main.(progressHead := scene);
      user.main := user.main.(progressFlow := MainFlow);
      user.cage := user.cage.(inProgress := false);
      user.cage := user.cage.(version := now);
      user.side := SideStory(0, 0, now);
      user.main := user.main.(version := now);
    } else if cleared && replay {
      SnapshotMainQuestIfNeeded(user);
      user.main := user.main.(flow := ReplayFlow);
      user.main := user.main.(replayScene := 0);
      user.main := user.main.(replayHead := 0);
      user.main := user.main.(version := now);
    }
  }

  /** The story's share of starting a quest not cleared: a background quest advances to its first scene. */
  method MoveIntoStory(c: Catalog, user: UserState, q: int, clock: int)
    requires q in c.quests && StoryReady(c, user.View(), q)
    modifies user
    ensures user.View() == InStory(c, old(user.View()), q, clock)
  {
    hide Advance;
    if c.Playable(q) {
      user.main := user.main.(flow := MainFlow);
    } else {
      var sceneIds := c.Scenes(q);
      if |sceneIds| > 0 {
        AdvanceMainFlowScene(c, user, q, sceneIds[0], clock);
        user.main := user.main.(flow := MainFlow);
      }
    }
  }

  method HandleQuestStart(c: Catalog, user: UserState, q: int, battleOnly: bool, mainFlow: bool, deck: int, replay: bool,
                          now: int, clock: int)
    requires CanStart(c, user.View(), q)
    modifies user
    ensures user.View() == Started(c, old(user.View()), q, battleOnly, mainFlow, deck, replay, now, clock)
  {
    hide MapMissions, Consumed, EnterReplay, InStory, PayStamina;
    InitQuestState(c, user, q);
    PayKeeps(c, user.View(), q, now);
    PayForQuest(c, user, q, now);
    ghost var paid := user.View();

    var questState := user.quests[q];
    questState := questState.(battleOnly := battleOnly);
    questState := questState.(deck := deck);
    var isCleared := questState.state == Cleared;
    EnterReplayFlow(c, user, q, isCleared, battleOnly, mainFlow, replay, now);
    EnterKeeps(c, paid, q, battleOnly, mainFlow, replay, now);

    if isCleared {
      questState := questState.(state := Active);
      questState := questState.(started := now);
      user.quests := user.quests[q := questState];
      return;
    }
    if c.Playable(q) {
      questState := questState.(state := Active);
      questState := questState.(started := now);
    } else {
      questState := questState.(state := Cleared);
      questState := questState.(clears := 1);
      questState := questState.(dailyClears := 1);
      questState := questState.(lastClear := now);
    }
    MoveIntoStory(c, user, q, clock);
    user.quests := user.quests[q := questState];
  }

  method FinalizeChainPreviousQuest(c: Catalog, user: UserState, q: int, now: int)
    requires CanFinalize(c, user.View(), q)
    modifies user
    ensures user.View() == Finalized(c, old(user.View()), q, now)
  {
    hide MapMissions, ApplyRewards, GroupKnown;
    if q !in c.quests {
      return;
    }
    InitQuestState(c, user, q);
    ghost var v := user.View();
    var questState := user.quests[q];
    if questState.state == Cleared {
      return;
    }
    if !questState.rewardGranted {
      ApplyQuestRewards(c, user, q, now);
      RewardsKeep(c, v, q, now);
      questState := questState.(rewardGranted := true);
    }
    questState := questState.(state := Cleared);
    questState := questState.(clears := questState.clears + 1);
    questState := questState.(dailyClears := questState.dailyClears + 1);
    questState := questState.(lastClear := now);
    questState := questState.(battleOnly := false);
    user.quests := user.quests[q := questState];
    ClearQuestMissions(c, user, q, now);
  }

  method RefundStamina(c: Catalog, user: UserState, q: int, isRetired: bool, isAnnihilated: bool, now: int)
    requires q in c.quests
    modifies user`status
    ensures user.View() == Refunded(c, old(user.View()), q, isRetired, isAnnihilated, now)
  {
    if isRetired && !isAnnihilated && c.quests[q].stamina > 1 {
      var refund := c.quests[q].stamina - 1;
      RecoverStamina(user, refund * 1000, c.MaxStaminaMilli(user.status.level), now);
    }
  }

  /** A retreat from a quest cleared before would leave it active, and locked. */
  method ReclearRetired(user: UserState, q: int, isRetired: bool)
    modifies user`quests
    ensures user.View() == Reclosed(old(user.View()), q, isRetired)
  {
    if isRetired {
      var qs := GetOr(user.quests, q, NO_QUEST);
      if qs.clears > 0 && qs.state == Active {
        qs := qs.(state := Cleared);
        user.quests := user.quests[q := qs];
      }
    }
  }

  method RestoreSnapshot(user: UserState, now: int)
    modifies user`main, user`cage
    ensures user.View() == Restored(old(user.View()), now)
  {
    var ctx := user.main.saved;
    user.main := user.main.(scene := ctx.scene);
    user.main := user.main.(head := ctx.head);
    user.main := user.main.(route := ctx.route);
    user.main := user.main.(season := ctx.season);
    user.main := user.main.(reachedLast := ctx.reachedLast);
    user.cage := user.cage.(inProgress := ctx.cage);
    user.cage := user.cage.(version := now);
    user.main := user.main.(saved := NO_CONTEXT);
    user.main := user.main.(version := now);
  }

  method EndFlow(user: UserState, wasReplay: bool, wasMenuReplay: bool, now: int)
    modifies user`main, user`cage
    ensures user.View() == FlowEnded(old(user.View()), wasReplay, wasMenuReplay, now)
  {
    user.main := user.main.(progressScene := 0);
    user.main := user.main.(progressHead := 0);
    user.main := user.main.(progressFlow := NoFlow);
    user.main := user.main.(flow := MainFlow);

    if wasMenuReplay {
      RestoreSnapshot(user, now);
    }
    if wasReplay {
      user.main := user.main.(replayScene := 0);
      user.main := user.main.(replayHead := 0);
    }
  }

  /** What a won main quest changes before the flow is reset. */
  method WinQuest(c: Catalog, user: UserState, q: int, outcome: Outcome, wasReplay: bool, wasMenuReplay: bool, now: int, clock: int)
    requires CanEvaluate(c, user.View(), q)
    requires c.Playable(q) && !wasReplay && !wasMenuReplay ==> c.Scenes(q) != []
    modifies user
    ensures var won := Victory(c, old(user.View()), q, outcome, now);
            user.View() == if c.Playable(q) && !wasReplay && !wasMenuReplay
                           then Advance(c, won, q, c.Scenes(q)[|c.Scenes(q)| - 1], clock) else won
  {
    hide Victory, Advance;
    ApplyQuestVictory(c, user, q, outcome, now);
    if c.Playable(q) && !wasReplay && !wasMenuReplay {
      var lastSceneId := c.Scenes(q)[|c.Scenes(q)| - 1];
      AdvanceMainFlowScene(c, user, q, lastSceneId, clock);
    }
  }

  method HandleQuestFinish(c: Catalog, user: UserState, q: int, isRetired: bool, isAnnihilated: bool, now: int, clock: int)
    returns (outcome: Outcome)
    requires CanFinish(c, user.View(), q, isRetired)
    modifies user
    ensures outcome == Evaluate(c, InitQuest(c, old(user.View()), q), q)
    ensures user.View() == Finished(c, old(user.View()), q, isRetired, isAnnihilated, now, clock)
  {
    hide MapMissions, Victory, Advance, Evaluate, Refunded, Reclosed, CanEvaluate, FlowEnded;
    EvaluateKnown(c, InitQuest(c, user.View(), q), q);
    InitQuestState(c, user, q);
    outcome := EvaluateFinishOutcome(c, user, q);
    var wasReplay := user.main.flow == ReplayFlow;
    var wasMenuReplay := user.main.saved.active;

    if !isRetired {
      WinQuest(c, user, q, outcome, wasReplay, wasMenuReplay, now, clock);
    }
    RefundStamina(c, user, q, isRetired, isAnnihilated, now);

    ReclearRetired(user, q, isRetired);

    EndFlow(user, wasReplay, wasMenuReplay, now);
    ClearQuestMissions(c, user, q, now);
  }

  method SpendTickets(c: Catalog, user: UserState, skipCount: int)
    modifies user`items
    ensures var left := GetOr(old(user.items), c.skipTicketItem, 0) - skipCount;
            user.items == old(user.items)[c.skipTicketItem := if left < 0 then 0 else left]
  {
    user.items := user.items[c.skipTicketItem := GetOr(user.items, c.skipTicketItem, 0) - skipCount];
    if user.items[c.skipTicketItem] < 0 {
      user.items := user.items[c.skipTicketItem := 0];
    }
  }

  method HandleQuestSkip(c: Catalog, user: UserState, q: int, skipCount: int, now: int) returns (drops: seq<Grant>)
    requires q in c.quests
    modifies user
    ensures user.View() == Skipped(c, old(user.View()), q, skipCount, now)
    ensures user.granted == old(user.granted) + drops
  {
    hide Consumed, SkipRuns;
    ConsumeStamina(user, skipCount, c.MaxStaminaMilli(user.status.level), now);
    SpendTickets(c, user, skipCount);
    drops := RunSkips(c, user, q, skipCount, now);
    var questState := GetOr(user.quests, q, NO_QUEST);
    questState := questState.(clears := questState.clears + skipCount);
    questState := questState.(dailyClears := questState.dailyClears + skipCount);
    questState := questState.(lastClear := now);
    user.quests := user.quests[q := questState];
  }

  method RunSkips(c: Catalog, user: UserState, q: int, skipCount: int, now: int) returns (drops: seq<Grant>)
    requires q in c.quests
    modifies user
    ensures user.View() == SkipRuns(c, old(user.View()), q, if skipCount < 0 then 0 else skipCount, now)
    ensures user.granted == old(user.granted) + drops
  {
    hide SkipOnce;
    drops := [];
    var i := 0;
    while i < skipCount
      invariant 0 <= i && (i <= skipCount || i == 0)
      invariant user.View() == SkipRuns(c, old(user.View()), q, i, now)
      invariant user.granted == old(user.granted) + drops
      decreases skipCount - i
    {
      var dropped := SkipRun(c, user, q, now);
      drops := drops + dropped;
      i := i + 1;
    }
  }

  method SkipRun(c: Catalog, user: UserState, q: int, now: int) returns (drops: seq<Grant>)
    requires q in c.quests
    modifies user
    ensures user.View() == SkipOnce(c, old(user.View()), q, now)
    ensures user.granted == old(user.granted) + drops
  {
    hide Drops, ApplyExp;
    var def := c.quests[q];
    drops := ComputeDropRewards(c, def);
    GrantAll(user, drops);
    if def.gold != 0 {
      user.items := user.items[c.goldItem := GetOr(user.items, c.goldItem, 0) + def.gold];
    }
    ExpKeeps(c, user.View(), q, now);
    ApplyExpRewards(c, user, q, now);
  }

  method HandleQuestRestart(c: Catalog, user: UserState, q: int, now: int)
    modifies user
    ensures user.View() == RestartedQuest(c, old(user.View()), q, now)
  {
    if q in c.quests && c.Playable(q) && user.main.flow == NoFlow {
      user.main := user.main.(flow := MainFlow);
    }
    var quest := GetOr(user.quests, q, NO_QUEST);
    quest := quest.(id := q);
    quest := quest.(state := Active);
    quest := quest.(started := now);
    user.quests := user.quests[q := quest];
    ResetMissions(c, user, q);
  }

  method ResetMissions(c: Catalog, user: UserState, q: int)
    modifies user`missions
    ensures user.missions == MapMissions(old(user.missions), q, c.MissionIds(q), Restarted(q))
  {
    var ids := c.MissionIds(q);
    var i := 0;
    while i < |ids|
      invariant i <= |ids|
      invariant user.missions == MapMissions(old(user.missions), q, ids[..i], Restarted(q))
    {
      var key := (q, ids[i]);
      var m := GetOr(user.missions, key, NO_MISSION);
      m := m.(questId := q);
      m := m.(missionId := ids[i]);
      m := m.(clear := false);
      m := m.(progress := 0);
      m := m.(lastClear := 0);
      user.missions := user.missions[key := m];
      assert ids[..i + 1][..i] == ids[..i];
      i := i + 1;
    }
    assert ids[..i] == ids;
  }
}
