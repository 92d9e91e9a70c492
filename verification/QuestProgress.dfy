/** The scene progress handlers of scene.go. */
module QuestProgress {
  import opened Store
  import opened Masterdata
  import opened QuestFlow
  import opened QuestRewards
  import opened QuestScenes
  import opened QuestMain

  method ApplySceneGrants(c: Catalog, user: UserState, scene: int)
    modifies user`granted
    ensures user.granted == old(user.granted) + GetOr(c.sceneGrants, scene, [])
  {
    if scene !in c.sceneGrants {
      return;
    }
    GrantAll(user, c.sceneGrants[scene]);
  }

  method HandleMainFlowSceneProgress(c: Catalog, user: UserState, scene: int, now: int, clock: int)
    requires CanProgressMainFlow(c, user.View(), scene)
    modifies user
    ensures user.View() == MainFlowProgressed(c, old(user.View()), scene, now, clock)
  {
    hide Advance;
    AdvanceMainFlowScene(c, user, c.scenes[scene].questId, scene, clock);
    user.main := user.main.(flow := MainFlow);
    if user.side.questId != 0 {
      user.side := SideStory(0, 0, now);
    }
    user.cage := user.cage.(inProgress := false);
    user.cage := user.cage.(version := now);
    ApplySceneGrants(c, user, scene);
  }

  method HandleReplayFlowSceneProgress(c: Catalog, user: UserState, scene: int, now: int)
    modifies user`main
    ensures user.View() == ReplayProgressed(c, old(user.View()), scene, now)
  {
    user.main := user.main.(replayScene := scene);
    if user.main.replayHead == 0 || Ahead(c, scene, user.main.replayHead) {
      user.main := user.main.(replayHead := scene);
    }
    user.main := user.main.(version := now);
  }

  method HandleMainQuestSceneProgress(c: Catalog, user: UserState, scene: int, clock: int, clock2: int)
    requires CanProgressMainQuest(c, user.View(), scene)
    modifies user
    ensures user.View() == MainQuestProgressed(c, old(user.View()), scene, clock, clock2)
  {
    hide Finalized, MapMissions, CanFinalize;
    var q := c.scenes[scene].questId;
    var prevSceneId := user.main.progressScene;
    if prevSceneId != 0 {
      if prevSceneId in c.scenes && c.scenes[prevSceneId].questId != q {
        FinalizeChainPreviousQuest(c, user, c.scenes[prevSceneId].questId, clock);
      }
    }
    if c.Playable(q) {
      if c.scenes[scene].result == HalfResult {
        ClearQuestMissions(c, user, q, clock2);
      }
      user.main := user.main.(progressScene := scene);
      if Ahead(c, scene, user.main.progressHead) {
        user.main := user.main.(progressHead := scene);
      }
      user.main := user.main.(flow := SubFlow);
      user.main := user.main.(progressFlow := SubFlow);
    } else {
      user.main := user.main.(scene := scene);
      if Ahead(c, scene, user.main.head) {
        user.main := user.main.(head := scene);
      }
      user.main := user.main.(reachedLast := scene == LastScene(c, q));
    }
  }
}
