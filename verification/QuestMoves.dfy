/** Where each handler leaves the player: the story position, the pointers of the quest being played, replayed or run
    beside the story, and the flow. Said on a handler call and the pointers before it. */
module QuestMoves {
  import opened Wrappers
  import opened Store
  import opened Masterdata
  import opened QuestFlow
  import opened QuestRuns
  import opened QuestUpkeep

  /** A scene lies further on than the head, or there is no head yet. */
  predicate Beyond(c: Catalog, scene: int, head: int) {
    head == 0 || GetOr(c.scenes, scene, NO_SCENE).sortOrder > GetOr(c.scenes, head, NO_SCENE).sortOrder
  }

  const NO_SCENE := Scene(0, 0, UnknownResult)

  /** The quest is fought: it counts, and does not run in the background. */
  predicate Fought(c: Catalog, q: int) {
    q in c.quests && c.quests[q].counted && !c.quests[q].inBackground
  }

  /** The last scene of the quest's chapter, else of the quest. */
  predicate IsLast(c: Catalog, q: int, scene: int) {
    if q in c.chapterLastScene then scene == c.chapterLastScene[q]
    else GetOr(c.sceneIds, q, []) != [] && scene == GetOr(c.sceneIds, q, [])[|GetOr(c.sceneIds, q, [])| - 1]
  }

  /** The player stands at the scene of the quest, on its route and in the season of that route. */
  predicate StandsAt(c: Catalog, u: User, q: int, scene: int, v: User) {
    && v.main.scene == scene && v.main.head == scene && (v.main.reachedLast <==> IsLast(c, q, scene))
    && v.main.route == GetOr(c.routeOfQuest, q, u.main.route)
    && v.main.season == (if q in c.routeOfQuest then GetOr(c.seasonOfRoute, c.routeOfQuest[q], u.main.season) else u.main.season)
  }

  predicate StandsStill(u: User, v: User) {
    && v.main.scene == u.main.scene && v.main.head == u.main.head && v.main.reachedLast == u.main.reachedLast
    && v.main.route == u.main.route && v.main.season == u.main.season && v.seasonRoutes == u.seasonRoutes
  }

  /** The first visit to a route in a season is dated; later ones leave the date. */
  predicate DatesRoute(c: Catalog, u: User, q: int, clock: int, v: User) {
    if q in c.routeOfQuest && c.routeOfQuest[q] in c.seasonOfRoute then
      var route, season := c.routeOfQuest[q], c.seasonOfRoute[c.routeOfQuest[q]];
      v.seasonRoutes == if season > 0 && route > 0 && (season, route) !in u.seasonRoutes
                        then u.seasonRoutes[(season, route) := clock] else u.seasonRoutes
    else v.seasonRoutes == u.seasonRoutes
  }

  /** The story moves to the scene when it lies further on, and not at all otherwise. */
  predicate MovesOn(c: Catalog, u: User, q: int, scene: int, clock: int, v: User) {
    if Beyond(c, scene, u.main.head) then StandsAt(c, u, q, scene, v) && DatesRoute(c, u, q, clock, v) else StandsStill(u, v)
  }

  /** The pointers of the quest being played. */
  predicate PlaysAt(v: User, scene: int, head: int, flow: FlowType) {
    v.main.progressScene == scene && v.main.progressHead == head && v.main.progressFlow == flow
  }

  predicate PlaysOn(u: User, v: User) {
    PlaysAt(v, u.main.progressScene, u.main.progressHead, u.main.progressFlow)
  }

  predicate ReplaysAt(v: User, scene: int, head: int) {
    v.main.replayScene == scene && v.main.replayHead == head
  }

  predicate ReplaysOn(u: User, v: User) {
    ReplaysAt(v, u.main.replayScene, u.main.replayHead)
  }

  predicate BesideStays(u: User, v: User) {
    v.event == u.event && v.extra == u.extra
  }

  // ---- The story ----

  lemma BeyondIsAhead(c: Catalog, scene: int, head: int)
    ensures Beyond(c, scene, head) == Ahead(c, scene, head)
  {
  }

  lemma LastIsLast(c: Catalog, q: int, scene: int)
    requires HasLastScene(c, q)
    ensures IsLast(c, q, scene) <==> scene == LastScene(c, q)
  {
  }

  lemma MovedStands(c: Catalog, u: User, q: int, scene: int)
    requires HasLastScene(c, q)
    ensures StandsAt(c, u, q, scene, u.(main := MovedTo(c, u.main, q, scene)))
  {
    hide HasLastScene, LastScene, IsLast;
    LastIsLast(c, q, scene);
  }

  lemma RouteDated(u: User, season: int, route: int, clock: int)
    ensures var v := RecordRoute(u, season, route, clock);
            && v == u.(seasonRoutes := v.seasonRoutes)
            && v.seasonRoutes == if season > 0 && route > 0 && (season, route) !in u.seasonRoutes
                                 then u.seasonRoutes[(season, route) := clock] else u.seasonRoutes
  {
  }

  lemma AdvanceMovesOn(c: Catalog, u: User, q: int, scene: int, clock: int)
    requires CanAdvance(c, u, q, scene)
    ensures var v := Advance(c, u, q, scene, clock);
            && MovesOn(c, u, q, scene, clock, v)
            && v == u.(main := v.main, seasonRoutes := v.seasonRoutes)
            && PlaysOn(u, v) && ReplaysOn(u, v) && v.main.flow == u.main.flow && v.main.saved == u.main.saved
            && v.main.version == u.main.version
  {
    hide Ahead, Beyond, LastScene, HasLastScene, IsLast, RecordRoute;
    BeyondIsAhead(c, scene, u.main.head);
    if Ahead(c, scene, u.main.head) {
      MovedStands(c, u, q, scene);
      var v := u.(main := MovedTo(c, u.main, q, scene));
      RouteDated(v, v.main.season, v.main.route, clock);
    }
  }

  /** A scene of the main flow moves the story, ends side story and cage, and grants what the scene holds. */
  lemma MainFlowSceneMoves(c: Catalog, u: User, a: Action)
    requires a.MainFlowScene? && Enabled(c, u, a)
    ensures a.scene in c.scenes
    ensures var v := Step(c, u, a);
            && MovesOn(c, u, c.scenes[a.scene].questId, a.scene, a.clock, v)
            && v.main.flow == MainFlow && v.main.saved == u.main.saved && PlaysOn(u, v) && ReplaysOn(u, v) && BesideStays(u, v)
            && v.cage == PortalCage(false, a.now)
            && v.side == (if u.side.questId == 0 then u.side else SideStory(0, 0, a.now))
            && v.granted == u.granted + GetOr(c.sceneGrants, a.scene, [])
  {
    hide Advance, CanAdvance, Beyond, StandsAt, IsLast;
    AdvanceMovesOn(c, u, c.scenes[a.scene].questId, a.scene, a.clock);
    var v := Advance(c, u, c.scenes[a.scene].questId, a.scene, a.clock);
    SamePlace(c, u, c.scenes[a.scene].questId, a.scene, a.clock, v, Step(c, u, a));
  }

  /** Whether the story moved on depends on the position and the dated routes only. */
  lemma SamePlace(c: Catalog, u: User, q: int, scene: int, clock: int, v: User, w: User)
    requires MovesOn(c, u, q, scene, clock, v) && StandsStill(v, w)
    ensures MovesOn(c, u, q, scene, clock, w)
  {
    hide Beyond, IsLast;
  }

  lemma ReplaySceneMoves(c: Catalog, u: User, a: Action)
    requires a.ReplayScene?
    ensures Step(c, u, a) ==
            u.(main := u.main.(replayScene := a.scene, version := a.now,
                               replayHead := if Beyond(c, a.scene, u.main.replayHead) then a.scene else u.main.replayHead))
  {
    hide Ahead;
    BeyondIsAhead(c, a.scene, u.main.replayHead);
  }

  /** A scene of a quest that is fought moves the quest's own pointers and no other; half-way through, it clears the
      quest's missions. */
  lemma FoughtSceneMoves(c: Catalog, u: User, a: Action)
    requires a.MainQuestScene? && Enabled(c, u, a) && Fought(c, c.scenes[a.scene].questId)
    ensures var v := Step(c, u, a);
            && PlaysAt(v, a.scene, if Beyond(c, a.scene, u.main.progressHead) then a.scene else u.main.progressHead, SubFlow)
            && v.main.flow == SubFlow && v.main.saved == u.main.saved && ReplaysOn(u, v) && StandsStill(u, v) && BesideStays(u, v)
            && v.cage == u.cage && v.side == u.side
            && (c.scenes[a.scene].result == HalfResult ==> Done(c, v, c.scenes[a.scene].questId))
  {
    hide LeftBehind, PlayedScene, HasLastScene, CanFinalize, Ahead, Beyond, Done;
    var q := c.scenes[a.scene].questId;
    LeftBehindStays(c, u, q, a.clock);
    PlayedSceneMoves(c, LeftBehind(c, u, q, a.clock), a.scene, a.clock2);
  }

  lemma LeftBehindStays(c: Catalog, u: User, q: int, clock: int)
    requires ChainPrevious(c, u, q).Some? ==> CanFinalize(c, u, ChainPrevious(c, u, q).value)
    ensures var v := LeftBehind(c, u, q, clock);
            && v.main == u.main && v.seasonRoutes == u.seasonRoutes && v.cage == u.cage && v.side == u.side && BesideStays(u, v)
  {
    hide CanFinalize, Finalized, ChainPrevious;
    if ChainPrevious(c, u, q).Some? {
      FinalizedStays(c, u, ChainPrevious(c, u, q).value, clock);
    }
  }

  lemma FinalizedStays(c: Catalog, u: User, q: int, now: int)
    requires CanFinalize(c, u, q)
    ensures var v := Finalized(c, u, q, now);
            && v.main == u.main && v.seasonRoutes == u.seasonRoutes && v.cage == u.cage && v.side == u.side && BesideStays(u, v)
  {
    hide MapMissions, ApplyRewards, GroupKnown;
    if q in c.quests && QuestOf(u, q).state != Cleared && !QuestOf(u, q).rewardGranted {
      RewardsKeep(c, InitQuest(c, u, q), q, now);
    }
  }

  lemma PlayedSceneMoves(c: Catalog, u: User, scene: int, clock: int)
    requires scene in c.scenes
    ensures var v := PlayedScene(c, u, scene, clock);
            && v == u.(main := u.main.(progressScene := scene, flow := SubFlow, progressFlow := SubFlow,
                         progressHead := if Beyond(c, scene, u.main.progressHead) then scene else u.main.progressHead),
                       missions := v.missions)
            && (c.scenes[scene].result == HalfResult ==> Done(c, v, c.scenes[scene].questId))
  {
    hide ClearMissions, Ahead, Done, SamePay;
    BeyondIsAhead(c, scene, u.main.progressHead);
    ClearMissionsKeeps(c, u, c.scenes[scene].questId, clock);
    if c.scenes[scene].result == HalfResult {
      PlayedHalf(c, u, scene, clock);
    }
  }

  lemma PlayedHalf(c: Catalog, u: User, scene: int, clock: int)
    requires scene in c.scenes && c.scenes[scene].result == HalfResult
    ensures Done(c, PlayedScene(c, u, scene, clock), c.scenes[scene].questId)
  {
    hide ClearMissions, Ahead, Done;
    ClearMissionsUpkept(c, u, c.scenes[scene].questId, clock);
    SameDone(c, ClearMissions(c, u, c.scenes[scene].questId, clock), PlayedScene(c, u, scene, clock), c.scenes[scene].questId);
  }

  lemma SameDone(c: Catalog, u: User, v: User, q: int)
    requires Done(c, u, q) && v.missions == u.missions
    ensures Done(c, v, q)
  {
  }

  /** A scene of a quest that is not fought moves the story position, the head only forward; route and season stay. */
  lemma BackgroundSceneMoves(c: Catalog, u: User, a: Action)
    requires a.MainQuestScene? && Enabled(c, u, a) && !Fought(c, c.scenes[a.scene].questId)
    ensures var v := Step(c, u, a);
            && v.main.scene == a.scene && (v.main.reachedLast <==> IsLast(c, c.scenes[a.scene].questId, a.scene))
            && v.main.head == (if Beyond(c, a.scene, u.main.head) then a.scene else u.main.head)
            && v.main.route == u.main.route && v.main.season == u.main.season && v.seasonRoutes == u.seasonRoutes
            && v.main.flow == u.main.flow && v.main.saved == u.main.saved && PlaysOn(u, v) && ReplaysOn(u, v) && BesideStays(u, v)
            && v.cage == u.cage && v.side == u.side
  {
    hide LeftBehind, LastScene, HasLastScene, CanFinalize, Ahead, Beyond, IsLast;
    var q := c.scenes[a.scene].questId;
    LeftBehindStays(c, u, q, a.clock);
    BeyondIsAhead(c, a.scene, u.main.head);
    LastIsLast(c, q, a.scene);
  }

  // ---- Starts ----

  /** A start from the menu, outside the story: of a cleared quest or of one with difficulties. */
  predicate Picked(c: Catalog, u: User, a: Action)
    requires a.Start?
  {
    !a.replay && !a.mainFlow && (QuestOf(u, a.q).state == Cleared || a.q in c.withDifficulty)
  }

  /** A start from the map, again, of a cleared quest. */
  predicate Replayed(u: User, a: Action)
    requires a.Start?
  {
    a.replay && QuestOf(u, a.q).state == Cleared
  }

  /** Where a quest picked from the menu begins: at the battle-only target if asked for and known, else at its first
      scene, else nowhere. */
  predicate BeginsAt(c: Catalog, q: int, battleOnly: bool, scene: int) {
    if battleOnly && q in c.battleOnlyTarget then scene == c.battleOnlyTarget[q]
    else if GetOr(c.sceneIds, q, []) != [] then scene == c.sceneIds[q][0]
    else scene == 0
  }

  /** Picked from the menu, a quest takes the progress pointers and ends cage and side story. Replayed from the map,
      it starts the replay flow with empty replay pointers. Both keep a snapshot: a held one, else the position now. */
  predicate EntersFrom(c: Catalog, u: User, a: Action, v: User)
    requires a.Start?
  {
    && (if Picked(c, u, a)
        then v.main.progressScene == v.main.progressHead && BeginsAt(c, a.q, a.battleOnly, v.main.progressScene)
             && v.main.progressFlow == MainFlow && v.cage == PortalCage(false, a.now) && v.side == SideStory(0, 0, a.now)
        else PlaysOn(u, v) && v.cage == u.cage && v.side == u.side)
    && (if Replayed(u, a) then ReplaysAt(v, 0, 0) else ReplaysOn(u, v))
    && v.main.saved == (if u.main.saved.active || !(Picked(c, u, a) || Replayed(u, a)) then u.main.saved
                        else SavedContext(true, u.main.scene, u.main.head, u.main.route, u.main.season, u.main.reachedLast,
                                          u.cage.inProgress))
    && v.main.version == (if Picked(c, u, a) || Replayed(u, a) then a.now else u.main.version)
  }

  lemma EnterReplayEnters(c: Catalog, u: User, a: Action)
    requires a.Start?
    ensures var v := EnterReplay(c, u, a.q, a.battleOnly, a.mainFlow, a.replay, a.now);
            && EntersFrom(c, u, a, v) && v == u.(main := v.main, cage := v.cage, side := v.side) && StandsStill(u, v)
            && v.main.flow == if Replayed(u, a) then ReplayFlow else u.main.flow
  {
    hide QuestOf;
  }

  lemma EnteredEnters(c: Catalog, u: User, a: Action)
    requires a.Start? && a.q in c.quests
    ensures var v := Entered(c, u, a.q, a.battleOnly, a.mainFlow, a.replay, a.now);
            && EntersFrom(c, u, a, v) && StandsStill(u, v) && BesideStays(u, v)
            && v.main.flow == if Replayed(u, a) then ReplayFlow else u.main.flow
  {
    hide MapMissions, PayStamina, EnterReplay, BeginsAt;
    var w := PayStamina(c, InitQuest(c, u, a.q), a.q, a.now);
    PayKeeps(c, InitQuest(c, u, a.q), a.q, a.now);
    EnterReplayEnters(c, w, a);
    assert QuestOf(w, a.q).state == QuestOf(u, a.q).state;
  }

  /** How a start moves the player: as above, and on to the first scene of an uncleared quest that is not fought. The
      flow becomes the story's unless the quest was cleared, or has no scenes to show. */
  lemma StartMoves(c: Catalog, u: User, a: Action)
    requires a.Start? && Enabled(c, u, a)
    ensures var v, cleared, scenes := Step(c, u, a), QuestOf(u, a.q).state == Cleared, GetOr(c.sceneIds, a.q, []);
            && EntersFrom(c, u, a, v) && BesideStays(u, v)
            && (if cleared || Fought(c, a.q) || scenes == [] then StandsStill(u, v) else MovesOn(c, u, a.q, scenes[0], a.clock, v))
            && v.main.flow == if cleared then (if a.replay then ReplayFlow else u.main.flow)
                              else if Fought(c, a.q) || scenes != [] then MainFlow else u.main.flow
  {
    hide Started, EntersFrom, MovesOn, StandsStill;
    StartedMoves(c, u, a);
  }

  lemma StartedMoves(c: Catalog, u: User, a: Action)
    requires a.Start? && CanStart(c, u, a.q)
    ensures var v := Started(c, u, a.q, a.battleOnly, a.mainFlow, a.deck, a.replay, a.now, a.clock);
            var cleared, scenes := QuestOf(u, a.q).state == Cleared, GetOr(c.sceneIds, a.q, []);
            && EntersFrom(c, u, a, v) && BesideStays(u, v)
            && (if cleared || Fought(c, a.q) || scenes == [] then StandsStill(u, v) else MovesOn(c, u, a.q, scenes[0], a.clock, v))
            && v.main.flow == if cleared then (if a.replay then ReplayFlow else u.main.flow)
                              else if Fought(c, a.q) || scenes != [] then MainFlow else u.main.flow
  {
    hide Entered, InStory, MovesOn, QuestEntered, Ahead, HasLastScene, Picked, BeginsAt;
    EnteredKeeps(c, u, a.q, a.battleOnly, a.mainFlow, a.replay, a.now);
    EnteredEnters(c, u, a);
    if QuestOf(u, a.q).state != Cleared {
      var w := Entered(c, u, a.q, a.battleOnly, a.mainFlow, a.replay, a.now);
      InStoryMoves(c, w, a.q, a.clock);
      if !c.Playable(a.q) && c.Scenes(a.q) != [] {
        MovesFromHere(c, u, w, a.q, c.Scenes(a.q)[0], a.clock, InStory(c, w, a.q, a.clock));
        SamePlace(c, u, a.q, c.Scenes(a.q)[0], a.clock, InStory(c, w, a.q, a.clock),
                  Started(c, u, a.q, a.battleOnly, a.mainFlow, a.deck, a.replay, a.now, a.clock));
      }
    }
  }

  lemma MovesFromHere(c: Catalog, u: User, v: User, q: int, scene: int, clock: int, w: User)
    requires StandsStill(u, v) && MovesOn(c, v, q, scene, clock, w)
    ensures MovesOn(c, u, q, scene, clock, w)
  {
    hide Beyond, IsLast;
  }

  lemma InStoryMoves(c: Catalog, u: User, q: int, clock: int)
    requires q in c.quests && StoryReady(c, u, q)
    ensures var v := InStory(c, u, q, clock);
            && v == u.(main := v.main, seasonRoutes := v.seasonRoutes)
            && (if c.Playable(q) || c.Scenes(q) == [] then StandsStill(u, v) else MovesOn(c, u, q, c.Scenes(q)[0], clock, v))
            && v.main.flow == (if c.Playable(q) || c.Scenes(q) != [] then MainFlow else u.main.flow)
            && PlaysOn(u, v) && ReplaysOn(u, v) && v.main.saved == u.main.saved && v.main.version == u.main.version
  {
    hide Advance, MovesOn, CanAdvance;
    if !c.Playable(q) && c.Scenes(q) != [] {
      AdvanceMovesOn(c, u, q, c.Scenes(q)[0], clock);
      var v := Advance(c, u, q, c.Scenes(q)[0], clock);
      SamePlace(c, u, q, c.Scenes(q)[0], clock, v, ToMainFlow(v));
    }
  }

  // ---- Finishes ----

  /** A finish of a main quest empties its pointers and returns to the main flow. With a snapshot held, the position
      and the cage saved in it come back and it is dropped; without, a fought quest that is won outside a replay moves
      the story to its last scene. */
  predicate EndsAt(c: Catalog, u: User, a: Action, v: User)
    requires a.Finish?
  {
    && PlaysAt(v, 0, 0, NoFlow) && v.main.flow == MainFlow && v.side == u.side && BesideStays(u, v)
    && (if u.main.flow == ReplayFlow then ReplaysAt(v, 0, 0) else ReplaysOn(u, v))
    && if u.main.saved.active then
         var s := u.main.saved;
         && v.main.scene == s.scene && v.main.head == s.head && v.main.route == s.route && v.main.season == s.season
         && v.main.reachedLast == s.reachedLast && v.cage == PortalCage(s.cage, a.now) && v.main.version == a.now
         && v.main.saved == SavedContext(false, 0, 0, 0, 0, false, false) && v.seasonRoutes == u.seasonRoutes
       else
         && v.main.saved == u.main.saved && v.cage == u.cage && v.main.version == u.main.version
         && if !a.retired && Fought(c, a.q) && u.main.flow != ReplayFlow && GetOr(c.sceneIds, a.q, []) != [] then
              var scenes := GetOr(c.sceneIds, a.q, []); MovesOn(c, u, a.q, scenes[|scenes| - 1], a.clock, v)
            else StandsStill(u, v)
  }

  lemma FinishMoves(c: Catalog, u: User, a: Action)
    requires a.Finish? && Enabled(c, u, a)
    ensures EndsAt(c, u, a, Step(c, u, a))
  {
    hide Finished, EndsAt;
    FinishedMoves(c, u, a);
  }

  lemma FinishedMoves(c: Catalog, u: User, a: Action)
    requires a.Finish? && CanFinish(c, u, a.q, a.retired)
    ensures EndsAt(c, u, a, Finished(c, u, a.q, a.retired, a.annihilated, a.now, a.clock))
  {
    hide InitQuest, Resolved, Refunded, Reclosed, FlowEnded, Advance, CanEvaluate, MapMissions, EndsAt;
    var q := a.q;
    var v := InitQuest(c, u, q);
    InitStays(c, u, q);
    EvaluateKnown(c, v, q);
    var wasReplay, wasMenuReplay := u.main.flow == ReplayFlow, u.main.saved.active;
    var moves := !a.retired && c.Playable(q) && !wasReplay && !wasMenuReplay;
    LastSceneKnown(c, q);
    ResolvedStays(c, v, q, a.retired, a.now);
    var won := Resolved(c, v, q, a.retired, a.now);
    if moves {
      AdvanceMovesOn(c, won, q, c.Scenes(q)[|c.Scenes(q)| - 1], a.clock);
      MovesFromHere(c, u, won, q, c.Scenes(q)[|c.Scenes(q)| - 1], a.clock, Advance(c, won, q, c.Scenes(q)[|c.Scenes(q)| - 1], a.clock));
    }
    var moved := if moves then Advance(c, won, q, c.Scenes(q)[|c.Scenes(q)| - 1], a.clock) else won;
    EndingEnds(c, moved, a);
    EndsThere(c, u, a, moved, Finished(c, u, q, a.retired, a.annihilated, a.now, a.clock));
  }

  lemma InitStays(c: Catalog, u: User, q: int)
    ensures var v := InitQuest(c, u, q);
            v.main == u.main && v.cage == u.cage && v.side == u.side && v.seasonRoutes == u.seasonRoutes && BesideStays(u, v)
  {
    hide MapMissions;
  }

  lemma ResolvedStays(c: Catalog, u: User, q: int, retired: bool, now: int)
    requires CanEvaluate(c, u, q)
    ensures var v := Resolved(c, u, q, retired, now);
            v.main == u.main && v.cage == u.cage && v.side == u.side && v.seasonRoutes == u.seasonRoutes && BesideStays(u, v)
  {
    hide Evaluate, GroupKnown, ApplyRewards;
    if !retired && !u.quests[q].rewardGranted {
      RewardsKeep(c, u, q, now);
    }
  }

  /** The end of a flow, whatever came before. */
  predicate Ends(u: User, wasReplay: bool, held: bool, now: int, v: User) {
    && PlaysAt(v, 0, 0, NoFlow) && v.main.flow == MainFlow && v.side == u.side && BesideStays(u, v)
    && (if wasReplay then ReplaysAt(v, 0, 0) else ReplaysOn(u, v))
    && if held then
         var s := u.main.saved;
         && v.main.scene == s.scene && v.main.head == s.head && v.main.route == s.route && v.main.season == s.season
         && v.main.reachedLast == s.reachedLast && v.cage == PortalCage(s.cage, now) && v.main.version == now
         && v.main.saved == SavedContext(false, 0, 0, 0, 0, false, false) && v.seasonRoutes == u.seasonRoutes
       else
         v.main.saved == u.main.saved && v.cage == u.cage && v.main.version == u.main.version && StandsStill(u, v)
  }

  lemma RestoredPlace(u: User, now: int)
    ensures var s, v := u.main.saved, Restored(u, now);
            && v == u.(main := v.main, cage := PortalCage(s.cage, now))
            && v.main == u.main.(scene := s.scene, head := s.head, route := s.route, season := s.season,
                                 reachedLast := s.reachedLast, saved := SavedContext(false, 0, 0, 0, 0, false, false), version := now)
  {
  }

  lemma FlowEndedEnds(u: User, wasReplay: bool, held: bool, now: int)
    ensures Ends(u, wasReplay, held, now, FlowEnded(u, wasReplay, held, now))
  {
    hide Restored;
    RestoredPlace(u.(main := u.main.(progressScene := 0, progressHead := 0, progressFlow := NoFlow, flow := MainFlow)), now);
  }

  /** Refund, reclosing and mission marks leave every pointer. */
  lemma EndingEnds(c: Catalog, u: User, a: Action)
    requires a.Finish? && a.q in c.quests
    ensures forall wasReplay, held ::
              var x := Reclosed(Refunded(c, u, a.q, a.retired, a.annihilated, a.now), a.q, a.retired);
              var w := FlowEnded(x, wasReplay, held, a.now);
              Ends(u, wasReplay, held, a.now, ClearMissions(c, w, a.q, a.now))
  {
    hide Refunded, Reclosed, MapMissions, FlowEnded;
    RefundKeeps(c, u, a.q, a.retired, a.annihilated, a.now);
    ReclosedKeeps(Refunded(c, u, a.q, a.retired, a.annihilated, a.now), a.q, a.retired);
    var x := Reclosed(Refunded(c, u, a.q, a.retired, a.annihilated, a.now), a.q, a.retired);
    forall wasReplay, held
      ensures Ends(u, wasReplay, held, a.now, ClearMissions(c, FlowEnded(x, wasReplay, held, a.now), a.q, a.now))
    {
      FlowEndedEnds(x, wasReplay, held, a.now);
    }
  }

  /** v is u after the victory, w is v after the end of the flow. */
  lemma EndsThere(c: Catalog, u: User, a: Action, v: User, w: User)
    requires a.Finish?
    requires v.cage == u.cage && v.side == u.side && BesideStays(u, v) && ReplaysOn(u, v)
    requires v.main.saved == u.main.saved && v.main.version == u.main.version
    requires v.seasonRoutes == u.seasonRoutes || !u.main.saved.active
    requires var scenes := GetOr(c.sceneIds, a.q, []);
             if !a.retired && Fought(c, a.q) && u.main.flow != ReplayFlow && !u.main.saved.active && scenes != []
             then MovesOn(c, u, a.q, scenes[|scenes| - 1], a.clock, v) else StandsStill(u, v)
    requires Ends(v, u.main.flow == ReplayFlow, u.main.saved.active, a.now, w)
    ensures EndsAt(c, u, a, w)
  {
    hide MovesOn, Fought;
    var scenes := GetOr(c.sceneIds, a.q, []);
    if !a.retired && Fought(c, a.q) && u.main.flow != ReplayFlow && !u.main.saved.active && scenes != [] {
      SamePlace(c, u, a.q, scenes[|scenes| - 1], a.clock, v, w);
    }
  }

  // ---- Beside the story ----

  /** Off the main flow only the pointers of the event or of the extra quest move. */
  predicate StoryUntouched(u: User, v: User) {
    v.main == u.main && v.cage == u.cage && v.side == u.side && v.seasonRoutes == u.seasonRoutes
  }

  lemma SideStartMoves(c: Catalog, u: User, a: Action)
    requires a.SideStart?() && Enabled(c, u, a)
    ensures var v, scenes := Step(c, u, a), GetOr(c.sceneIds, a.q, []);
            && StoryUntouched(u, v)
            && v.event == (if !a.EventStart? then u.event
                           else if scenes == [] then u.event.(chapter := a.chapter, questId := a.q)
                           else EventQuest(a.chapter, a.q, scenes[0], scenes[0], u.event.version))
            && v.extra == if !a.ExtraStart? then u.extra
                          else if scenes == [] then u.extra.(questId := a.q)
                          else ExtraQuest(a.q, scenes[0], scenes[0])
  {
    hide SideStarted;
    SideStartedStays(c, u, a.q, if a.EventStart? then Some(a.battleOnly) else None, a.deck, a.now);
  }

  lemma SideStartedStays(c: Catalog, u: User, q: int, battleOnly: Option<bool>, deck: int, now: int)
    requires q in c.quests
    ensures var v := SideStarted(c, u, q, battleOnly, deck, now); StoryUntouched(u, v) && BesideStays(u, v)
  {
    hide MapMissions, PayStamina;
    PayKeeps(c, InitQuest(c, u, q), q, now);
  }

  lemma SideFinishMoves(c: Catalog, u: User, a: Action)
    requires a.SideFinish?() && Enabled(c, u, a)
    ensures var v := Step(c, u, a);
            && StoryUntouched(u, v)
            && v.event == (if a.EventFinish? then EventQuest(0, 0, 0, 0, a.now) else u.event)
            && v.extra == if a.ExtraFinish? then ExtraQuest(0, 0, 0) else u.extra
  {
    hide Resolved, Refunded, CanEvaluate, MapMissions;
    EvaluateKnown(c, u, a.q);
    ResolvedStays(c, u, a.q, a.retired, a.now);
    RefundKeeps(c, Resolved(c, u, a.q, a.retired, a.now), a.q, a.retired, a.annihilated, a.now);
  }

  lemma RestartMoves(c: Catalog, u: User, a: Action)
    requires a.Restart? || a.EventRestart? || a.ExtraRestart?
    ensures var v := Step(c, u, a);
            && v.main == u.main.(flow := if Fought(c, a.q) && u.main.flow == NoFlow then MainFlow else u.main.flow)
            && v.cage == u.cage && v.side == u.side && v.seasonRoutes == u.seasonRoutes
            && v.event == (if a.EventRestart? then u.event.(chapter := a.chapter, questId := a.q) else u.event)
            && v.extra == if a.ExtraRestart? then u.extra.(questId := a.q) else u.extra
  {
    hide RestartedQuest;
    RestartedMoves(c, u, a.q, a.now);
  }

  lemma RestartedMoves(c: Catalog, u: User, q: int, now: int)
    ensures var v := RestartedQuest(c, u, q, now);
            && v.main == u.main.(flow := if Fought(c, q) && u.main.flow == NoFlow then MainFlow else u.main.flow)
            && v.cage == u.cage && v.side == u.side && v.seasonRoutes == u.seasonRoutes && BesideStays(u, v)
  {
    hide MapMissions;
  }

  /** An event or extra scene moves its own pointers, grants what it holds, and half-way clears the quest's missions; an
      unknown scene does nothing. */
  lemma SideSceneMoves(c: Catalog, u: User, a: Action)
    requires a.EventScene? || a.ExtraScene?
    ensures var v := Step(c, u, a);
            if a.scene !in c.scenes then v == u
            else
              && StoryUntouched(u, v)
              && v.event == (if a.EventScene?
                             then u.event.(scene := a.scene, head := if Beyond(c, a.scene, u.event.head) then a.scene else u.event.head)
                             else u.event)
              && v.extra == (if a.ExtraScene?
                             then u.extra.(scene := a.scene, head := if Beyond(c, a.scene, u.extra.head) then a.scene else u.extra.head)
                             else u.extra)
              && v.granted == u.granted + GetOr(c.sceneGrants, a.scene, [])
              && (if c.scenes[a.scene].result == HalfResult then Done(c, v, c.scenes[a.scene].questId) else v.missions == u.missions)
  {
    hide MapMissions, Ahead, Beyond, Done, SceneEffects;
    BeyondIsAhead(c, a.scene, u.event.head);
    BeyondIsAhead(c, a.scene, u.extra.head);
    if a.scene in c.scenes {
      SceneEffectsAre(c, if a.EventScene? then AtEventScene(c, u, a.scene) else AtExtraScene(c, u, a.scene), a.scene, a.now);
    }
  }

  lemma SceneEffectsAre(c: Catalog, u: User, scene: int, now: int)
    requires scene in c.scenes
    ensures var v := SceneEffects(c, u, scene, now);
            && v == u.(granted := u.granted + GetOr(c.sceneGrants, scene, []), missions := v.missions)
            && (if c.scenes[scene].result == HalfResult then Done(c, v, c.scenes[scene].questId) else v.missions == u.missions)
  {
    hide MapMissions, Done;
    ClearMissionsUpkept(c, Granted(u, GetOr(c.sceneGrants, scene, [])), c.scenes[scene].questId, now);
  }
}
