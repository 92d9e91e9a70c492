/** What every quest handler keeps of missions and costumes: a mission once clear stays clear until its quest is
    restarted, and a costume within its level cap stays within it. */
module QuestUpkeep {
  import opened Wrappers
  import opened Store
  import opened Masterdata
  import opened QuestFlow
  import opened QuestRuns

  // ---- Mission rows ----

  predicate ClearIn(ms: map<MissionKey, Mission>, q: int, id: int) {
    GetOr(ms, (q, id), NO_MISSION).clear
  }

  lemma {:induction false} NamedKeepsClear(ms: map<MissionKey, Mission>, q: int, ids: seq<int>, p: int, id: int)
    ensures ClearIn(MapMissions(ms, q, ids, Named(q)), p, id) == ClearIn(ms, p, id)
  {
    if ids != [] {
      NamedKeepsClear(ms, q, ids[..|ids| - 1], p, id);
    }
  }

  lemma {:induction false} ClearedAtClears(ms: map<MissionKey, Mission>, q: int, ids: seq<int>, now: int, p: int, id: int)
    ensures ClearIn(MapMissions(ms, q, ids, ClearedAt(now)), p, id) == (ClearIn(ms, p, id) || (p == q && id in ids))
  {
    if ids != [] {
      var n := |ids| - 1;
      ClearedAtClears(ms, q, ids[..n], now, p, id);
      assert ids == ids[..n] + [ids[n]];
    }
  }

  lemma {:induction false} RestartedUnclears(ms: map<MissionKey, Mission>, q: int, ids: seq<int>, p: int, id: int)
    ensures ClearIn(MapMissions(ms, q, ids, Restarted(q)), p, id) == (ClearIn(ms, p, id) && !(p == q && id in ids))
  {
    if ids != [] {
      var n := |ids| - 1;
      RestartedUnclears(ms, q, ids[..n], p, id);
      assert ids == ids[..n] + [ids[n]];
    }
  }

  // ---- Costumes ----

  /** The costume is at most at its limit-break level cap, if the catalog gives it one. */
  predicate WithinCap(c: Catalog, row: Costume) {
    row.costumeId in c.costumes ==>
      var cap := c.Rules(c.costumes[row.costumeId], row.limitBreak).maxLevel;
      cap.Some? ==> 0 <= row.level <= cap.value
  }

  ghost predicate CostumesWithin(c: Catalog, rows: map<string, Costume>) {
    forall k :: k in rows ==> WithinCap(c, rows[k])
  }

  lemma GainStaysWithin(c: Catalog, row: Costume, amount: int)
    requires row == NO_COSTUME || WithinCap(c, row)
    ensures CostumeAfter(c, row, amount).Some? ==> WithinCap(c, CostumeAfter(c, row, amount).value)
  {
  }

  lemma ExpStaysWithin(c: Catalog, u: User, q: int, now: int)
    requires CostumesWithin(c, u.costumes)
    ensures CostumesWithin(c, ApplyExp(c, u, q, now).costumes)
  {
    hide StatusAfterExp, CharactersAfter, Trained, WithinCap, CostumeAfter;
    if q in c.quests {
      var keys, amount := Trained(c, u, q).costumes, c.quests[q].costumeExp;
      forall k | k in CostumesAfter(c, u.costumes, keys, amount)
        ensures WithinCap(c, CostumesAfter(c, u.costumes, keys, amount)[k])
      {
        GainStaysWithin(c, GetOr(u.costumes, k, NO_COSTUME), amount);
      }
    }
  }

  // ---- One part of a handler after the other ----

  ghost predicate MissionsKept(u: User, v: User) {
    forall q, id :: ClearIn(u.missions, q, id) ==> ClearIn(v.missions, q, id)
  }

  ghost predicate CostumesKept(c: Catalog, u: User, v: User) {
    CostumesWithin(c, u.costumes) ==> CostumesWithin(c, v.costumes)
  }

  /** From u to v no mission loses its mark and no costume passes its cap. */
  ghost predicate Upkept(c: Catalog, u: User, v: User) {
    MissionsKept(u, v) && CostumesKept(c, u, v)
  }

  lemma SameUpkept(c: Catalog, u: User, v: User)
    requires v.missions == u.missions && v.costumes == u.costumes
    ensures Upkept(c, u, v)
  {
  }

  lemma Chain(c: Catalog, u: User, v: User, w: User)
    requires Upkept(c, u, v) && Upkept(c, v, w)
    ensures Upkept(c, u, w)
  {
    forall q, id | ClearIn(u.missions, q, id) ensures ClearIn(w.missions, q, id) {
      assert ClearIn(v.missions, q, id);
    }
  }

  lemma InitUpkept(c: Catalog, u: User, q: int)
    ensures Upkept(c, u, InitQuest(c, u, q))
  {
    hide MapMissions;
    forall p, id ensures ClearIn(InitQuest(c, u, q).missions, p, id) == ClearIn(u.missions, p, id) {
      NamedKeepsClear(u.missions, q, c.MissionIds(q), p, id);
    }
  }

  lemma ClearMissionsUpkept(c: Catalog, u: User, q: int, now: int)
    ensures Upkept(c, u, ClearMissions(c, u, q, now))
    ensures Done(c, ClearMissions(c, u, q, now), q)
  {
    hide MapMissions;
    forall p, id ensures ClearIn(ClearMissions(c, u, q, now).missions, p, id) ==
                         (ClearIn(u.missions, p, id) || (p == q && id in c.MissionIds(q)))
    {
      ClearedAtClears(u.missions, q, c.MissionIds(q), now, p, id);
    }
  }

  /** Every mission of the quest is clear. */
  ghost predicate Done(c: Catalog, u: User, q: int) {
    forall id :: id in c.MissionIds(q) ==> ClearIn(u.missions, q, id)
  }

  lemma ExpUpkept(c: Catalog, u: User, q: int, now: int)
    ensures Upkept(c, u, ApplyExp(c, u, q, now))
  {
    hide CostumesWithin, ApplyExp;
    ExpKeeps(c, u, q, now);
    if CostumesWithin(c, u.costumes) {
      ExpStaysWithin(c, u, q, now);
    }
  }

  lemma RewardsUpkept(c: Catalog, u: User, q: int, now: int)
    requires q in c.quests && GroupKnown(c, u, q)
    ensures Upkept(c, u, ApplyRewards(c, u, q, now))
  {
    hide CostumesWithin, ApplyExp, GroupKnown, FirstClear, Upkept;
    var v, w := ApplyExp(c, u, q, now), ApplyRewards(c, u, q, now);
    ExpUpkept(c, u, q, now);
    ExpKeeps(c, u, q, now);
    SameUpkept(c, v, w);
    Chain(c, u, v, w);
  }

  lemma ResolvedUpkept(c: Catalog, u: User, q: int, retired: bool, now: int)
    requires CanEvaluate(c, u, q)
    ensures Upkept(c, u, Resolved(c, u, q, retired, now))
  {
    hide GroupKnown, Evaluate, ApplyRewards, Upkept;
    var v := Resolved(c, u, q, retired, now);
    if retired || u.quests[q].rewardGranted {
      SameUpkept(c, u, v);
    } else {
      RewardsUpkept(c, u, q, now);
      SameUpkept(c, ApplyRewards(c, u, q, now), v);
      Chain(c, u, ApplyRewards(c, u, q, now), v);
    }
  }

  lemma {:induction false} SkipRunsUpkept(c: Catalog, u: User, q: int, n: nat, now: int)
    requires q in c.quests
    ensures Upkept(c, u, SkipRuns(c, u, q, n, now))
  {
    hide ApplyExp, Drops, Upkept;
    if n == 0 {
      SameUpkept(c, u, u);
    } else {
      SkipRunsUpkept(c, u, q, n - 1, now);
      var w := SkipRuns(c, u, q, n - 1, now);
      var d := Granted(w, Drops(c, c.quests[q]));
      var e := if c.quests[q].gold != 0 then AddItem(d, c.goldItem, c.quests[q].gold) else d;
      SameUpkept(c, w, e);
      ExpUpkept(c, e, q, now);
      Chain(c, u, w, e);
      Chain(c, u, e, ApplyExp(c, e, q, now));
    }
  }

  lemma AdvanceUpkept(c: Catalog, u: User, q: int, scene: int, clock: int)
    requires CanAdvance(c, u, q, scene)
    ensures Upkept(c, u, Advance(c, u, q, scene, clock))
  {
    hide Advance, Upkept, CanAdvance;
    AdvanceMoves(c, u, q, scene, clock);
    SameUpkept(c, u, Advance(c, u, q, scene, clock));
  }

  // ---- The handlers ----

  lemma StartedUpkept(c: Catalog, u: User, a: Action)
    requires a.Start? && Enabled(c, u, a)
    ensures Upkept(c, u, Step(c, u, a))
  {
    hide Entered, InStory, QuestEntered, Upkept;
    var q := a.q;
    var v := Entered(c, u, q, a.battleOnly, a.mainFlow, a.replay, a.now);
    EnteredKeeps(c, u, q, a.battleOnly, a.mainFlow, a.replay, a.now);
    EnteredUpkept(c, u, a);
    if QuestOf(u, q).state.Cleared? {
      SameUpkept(c, v, Step(c, u, a));
    } else {
      assert StoryReady(c, v, q);
      InStoryUpkept(c, v, q, a.clock);
      SameUpkept(c, InStory(c, v, q, a.clock), Step(c, u, a));
      Chain(c, v, InStory(c, v, q, a.clock), Step(c, u, a));
    }
    Chain(c, u, v, Step(c, u, a));
  }

  lemma EnteredUpkept(c: Catalog, u: User, a: Action)
    requires a.Start? && a.q in c.quests
    ensures Upkept(c, u, Entered(c, u, a.q, a.battleOnly, a.mainFlow, a.replay, a.now))
  {
    hide PayStamina, EnterReplay, Upkept, InitQuest;
    var v := InitQuest(c, u, a.q);
    InitUpkept(c, u, a.q);
    PayKeeps(c, v, a.q, a.now);
    var w := PayStamina(c, v, a.q, a.now);
    EnterKeeps(c, w, a.q, a.battleOnly, a.mainFlow, a.replay, a.now);
    var x := EnterReplay(c, w, a.q, a.battleOnly, a.mainFlow, a.replay, a.now);
    SameUpkept(c, v, x);
    Chain(c, u, v, x);
  }

  lemma InStoryUpkept(c: Catalog, u: User, q: int, clock: int)
    requires q in c.quests && StoryReady(c, u, q)
    ensures Upkept(c, u, InStory(c, u, q, clock))
  {
    hide Upkept, Advance, ToMainFlow, HasLastScene, Ahead;
    ToMainFlowKeeps(u);
    if c.Playable(q) || c.Scenes(q) == [] {
      SameUpkept(c, u, InStory(c, u, q, clock));
    } else {
      var v := Advance(c, u, q, c.Scenes(q)[0], clock);
      AdvanceUpkept(c, u, q, c.Scenes(q)[0], clock);
      ToMainFlowKeeps(v);
      SameUpkept(c, v, ToMainFlow(v));
      Chain(c, u, v, ToMainFlow(v));
    }
  }

  lemma FinishedUpkept(c: Catalog, u: User, a: Action)
    requires a.Finish? && Enabled(c, u, a)
    ensures Upkept(c, u, Step(c, u, a)) && Done(c, Step(c, u, a), a.q)
  {
    hide InitQuest, Resolved, Refunded, Reclosed, FlowEnded, Advance, CanEvaluate, ClearMissions, Upkept, Done, HasLastScene;
    var q := a.q;
    var v := InitQuest(c, u, q);
    InitUpkept(c, u, q);
    EvaluateKnown(c, v, q);
    var wasReplay, wasMenuReplay := u.main.flow == ReplayFlow, u.main.saved.active;
    var won := Resolved(c, v, q, a.retired, a.now);
    ResolvedUpkept(c, v, q, a.retired, a.now);
    Chain(c, u, v, won);
    var moves := !a.retired && c.Playable(q) && !wasReplay && !wasMenuReplay;
    if moves {
      LastSceneKnown(c, q);
      AdvanceUpkept(c, won, q, c.Scenes(q)[|c.Scenes(q)| - 1], a.clock);
    } else {
      SameUpkept(c, won, won);
    }
    var moved := if moves then Advance(c, won, q, c.Scenes(q)[|c.Scenes(q)| - 1], a.clock) else won;
    Chain(c, u, won, moved);
    EndingUpkept(c, moved, q, a.retired, a.annihilated, wasReplay, wasMenuReplay, a.now);
    var ended := FlowEnded(Reclosed(Refunded(c, moved, q, a.retired, a.annihilated, a.now), q, a.retired), wasReplay, wasMenuReplay, a.now);
    Chain(c, u, moved, ended);
    ClearMissionsUpkept(c, ended, q, a.now);
    Chain(c, u, ended, ClearMissions(c, ended, q, a.now));
  }

  lemma LastSceneKnown(c: Catalog, q: int)
    ensures c.Scenes(q) != [] ==> HasLastScene(c, q)
  {
  }

  lemma EndingUpkept(c: Catalog, u: User, q: int, retired: bool, annihilated: bool, wasReplay: bool, wasMenuReplay: bool, now: int)
    requires q in c.quests
    ensures Upkept(c, u, FlowEnded(Reclosed(Refunded(c, u, q, retired, annihilated, now), q, retired), wasReplay, wasMenuReplay, now))
  {
    hide Refunded, Reclosed, FlowEnded, Upkept;
    RefundKeeps(c, u, q, retired, annihilated, now);
    var w := Refunded(c, u, q, retired, annihilated, now);
    ReclosedKeeps(w, q, retired);
    FlowEndedStory(Reclosed(w, q, retired), wasReplay, wasMenuReplay, now);
    SameUpkept(c, u, FlowEnded(Reclosed(w, q, retired), wasReplay, wasMenuReplay, now));
  }

  lemma SkippedUpkept(c: Catalog, u: User, a: Action)
    requires a.Skip? && Enabled(c, u, a)
    ensures Upkept(c, u, Step(c, u, a))
  {
    hide SkipPaid, SkipRuns, Upkept;
    var v := SkipPaid(c, u, a.count, a.now);
    SkipPaidKeeps(c, u, a.count, a.now);
    SameUpkept(c, u, v);
    var w := SkipRuns(c, v, a.q, if a.count < 0 then 0 else a.count, a.now);
    SkipRunsUpkept(c, v, a.q, if a.count < 0 then 0 else a.count, a.now);
    Chain(c, u, v, w);
    SameUpkept(c, w, Step(c, u, a));
    Chain(c, u, w, Step(c, u, a));
  }

  lemma FinalizedUpkept(c: Catalog, u: User, q: int, now: int)
    requires CanFinalize(c, u, q)
    ensures Upkept(c, u, Finalized(c, u, q, now))
  {
    hide MapMissions, ApplyRewards, GroupKnown, Upkept, ClearMissions;
    if q !in c.quests {
      SameUpkept(c, u, u);
    } else {
      var v := InitQuest(c, u, q);
      InitUpkept(c, u, q);
      var quest := v.quests[q];
      if !quest.state.Cleared? {
        var paid := if quest.rewardGranted then v else ApplyRewards(c, v, q, now);
        if quest.rewardGranted {
          SameUpkept(c, v, paid);
        } else {
          RewardsUpkept(c, v, q, now);
        }
        Chain(c, u, v, paid);
        var done := quest.(rewardGranted := true, state := Cleared, clears := quest.clears + 1,
                           dailyClears := quest.dailyClears + 1, lastClear := now, battleOnly := false);
        var w := paid.(quests := paid.quests[q := done]);
        SameUpkept(c, paid, w);
        Chain(c, u, paid, w);
        ClearMissionsUpkept(c, w, q, now);
        Chain(c, u, w, ClearMissions(c, w, q, now));
      }
    }
  }

  lemma MainFlowSceneUpkept(c: Catalog, u: User, a: Action)
    requires a.MainFlowScene? && Enabled(c, u, a)
    ensures Upkept(c, u, Step(c, u, a))
  {
    hide Advance, HasLastScene, Ahead, Upkept;
    var v := Advance(c, u, c.scenes[a.scene].questId, a.scene, a.clock);
    AdvanceUpkept(c, u, c.scenes[a.scene].questId, a.scene, a.clock);
    SameUpkept(c, v, Step(c, u, a));
    Chain(c, u, v, Step(c, u, a));
  }

  lemma MainQuestSceneUpkept(c: Catalog, u: User, a: Action)
    requires a.MainQuestScene? && Enabled(c, u, a)
    ensures Upkept(c, u, Step(c, u, a))
  {
    hide Ahead, Finalized, PlayedScene, BackgroundScene, HasLastScene, CanFinalize, Upkept;
    var q := c.scenes[a.scene].questId;
    var v := LeftBehind(c, u, q, a.clock);
    if ChainPrevious(c, u, q).Some? {
      FinalizedUpkept(c, u, ChainPrevious(c, u, q).value, a.clock);
    } else {
      SameUpkept(c, u, u);
    }
    if c.Playable(q) {
      PlayedUpkept(c, v, a.scene, a.clock2);
    } else {
      BackgroundUpkept(c, v, q, a.scene);
    }
    Chain(c, u, v, Step(c, u, a));
  }

  lemma PlayedUpkept(c: Catalog, u: User, scene: int, clock: int)
    requires scene in c.scenes
    ensures Upkept(c, u, PlayedScene(c, u, scene, clock))
  {
    hide Ahead, ClearMissions, Upkept;
    var q := c.scenes[scene].questId;
    var v := if c.scenes[scene].result == HalfResult then ClearMissions(c, u, q, clock) else u;
    ClearMissionsUpkept(c, u, q, clock);
    SameUpkept(c, u, u);
    SameUpkept(c, v, PlayedScene(c, u, scene, clock));
    Chain(c, u, v, PlayedScene(c, u, scene, clock));
  }

  lemma BackgroundUpkept(c: Catalog, u: User, q: int, scene: int)
    requires HasLastScene(c, q)
    ensures Upkept(c, u, BackgroundScene(c, u, q, scene))
  {
    hide Ahead, HasLastScene, LastScene, Upkept;
    SameUpkept(c, u, BackgroundScene(c, u, q, scene));
  }

  lemma SideStartUpkept(c: Catalog, u: User, a: Action)
    requires a.SideStart?() && Enabled(c, u, a)
    ensures Upkept(c, u, Step(c, u, a))
  {
    hide InitQuest, PayStamina, Upkept;
    var v := InitQuest(c, u, a.q);
    InitUpkept(c, u, a.q);
    InitKnows(c, u, a.q);
    PayKeeps(c, v, a.q, a.now);
    var w := SideStarted(c, u, a.q, if a.EventStart? then Some(a.battleOnly) else None, a.deck, a.now);
    SameUpkept(c, v, w);
    Chain(c, u, v, w);
    SideStartStep(c, u, a, w);
    SameUpkept(c, w, Step(c, u, a));
    Chain(c, u, w, Step(c, u, a));
  }

  lemma InitKnows(c: Catalog, u: User, q: int)
    ensures q in InitQuest(c, u, q).quests
  {
  }

  lemma SideStartStep(c: Catalog, u: User, a: Action, w: User)
    requires a.SideStart?() && Enabled(c, u, a)
    requires w == SideStarted(c, u, a.q, if a.EventStart? then Some(a.battleOnly) else None, a.deck, a.now)
    ensures Step(c, u, a).missions == w.missions && Step(c, u, a).costumes == w.costumes
  {
    hide SideStarted;
  }

  lemma SideFinishUpkept(c: Catalog, u: User, a: Action)
    requires a.SideFinish?() && Enabled(c, u, a)
    ensures Upkept(c, u, Step(c, u, a)) && Done(c, Step(c, u, a), a.q)
  {
    hide Resolved, Refunded, CanEvaluate, ClearMissions, Upkept, Done;
    EvaluateKnown(c, u, a.q);
    var v := Resolved(c, u, a.q, a.retired, a.now);
    ResolvedUpkept(c, u, a.q, a.retired, a.now);
    RefundKeeps(c, v, a.q, a.retired, a.annihilated, a.now);
    var w := SideFinished(c, u, a.q, a.retired, a.annihilated, a.now);
    var x := if a.EventFinish? then w.(event := EventQuest(0, 0, 0, 0, a.now))
             else if a.ExtraFinish? then w.(extra := ExtraQuest(0, 0, 0)) else w;
    SameUpkept(c, v, x);
    Chain(c, u, v, x);
    ClearMissionsUpkept(c, x, a.q, a.now);
    Chain(c, u, x, ClearMissions(c, x, a.q, a.now));
  }

  lemma SideSceneUpkept(c: Catalog, u: User, a: Action)
    requires a.EventScene? || a.ExtraScene?
    ensures Upkept(c, u, Step(c, u, a))
  {
    hide AtEventScene, AtExtraScene, Upkept, ClearMissions;
    AtSceneKeeps(c, u, a.scene);
    if a.scene in c.scenes {
      var v := if a.EventScene? then AtEventScene(c, u, a.scene) else AtExtraScene(c, u, a.scene);
      var w := Granted(v, GetOr(c.sceneGrants, a.scene, []));
      SameUpkept(c, u, w);
      ClearMissionsUpkept(c, w, c.scenes[a.scene].questId, a.now);
      Chain(c, u, w, ClearMissions(c, w, c.scenes[a.scene].questId, a.now));
    } else {
      SameUpkept(c, u, u);
    }
  }

  lemma ReplaySceneUpkept(c: Catalog, u: User, a: Action)
    requires a.ReplayScene?
    ensures Upkept(c, u, Step(c, u, a))
  {
    hide Ahead, Upkept;
    SameUpkept(c, u, Step(c, u, a));
  }

  predicate Restarts(a: Action) {
    a.Restart? || a.EventRestart? || a.ExtraRestart?
  }

  /** A restart takes the marks off its own quest's missions and leaves the rest. */
  lemma RestartTakesMarks(c: Catalog, u: User, a: Action)
    requires Restarts(a)
    ensures Step(c, u, a).costumes == u.costumes
    ensures forall q, id :: ClearIn(Step(c, u, a).missions, q, id) ==
                            (ClearIn(u.missions, q, id) && !(q == a.q && id in c.MissionIds(q)))
  {
    hide MapMissions, ToMainFlow;
    ToMainFlowKeeps(u);
    forall q, id
      ensures ClearIn(MapMissions(u.missions, a.q, c.MissionIds(a.q), Restarted(a.q)), q, id) ==
              (ClearIn(u.missions, q, id) && !(q == a.q && id in c.MissionIds(q)))
    {
      RestartedUnclears(u.missions, a.q, c.MissionIds(a.q), q, id);
    }
  }

  lemma StepUpkept(c: Catalog, u: User, a: Action)
    requires Enabled(c, u, a) && !Restarts(a)
    ensures Upkept(c, u, Step(c, u, a))
  {
    hide Enabled, Step, Upkept, Done;
    if a.Start? { StartedUpkept(c, u, a); }
    else if a.Finish? { FinishedUpkept(c, u, a); }
    else if a.Skip? { SkippedUpkept(c, u, a); }
    else if a.MainFlowScene? { MainFlowSceneUpkept(c, u, a); }
    else if a.MainQuestScene? { MainQuestSceneUpkept(c, u, a); }
    else if a.SideStart?() { SideStartUpkept(c, u, a); }
    else if a.SideFinish?() { SideFinishUpkept(c, u, a); }
    else if a.ReplayScene? { ReplaySceneUpkept(c, u, a); }
    else { SideSceneUpkept(c, u, a); }
  }

  // ---- Runs ----

  /** Over any run of every handler, costumes within their limit-break level caps stay within them. */
  lemma {:induction false} CostumesStayWithin(c: Catalog, us: seq<User>, acts: seq<Action>)
    requires Run(c, us, acts) && CostumesWithin(c, us[0].costumes)
    ensures CostumesWithin(c, us[|acts|].costumes)
  {
    hide CostumesWithin, Enabled, Step;
    if acts != [] {
      var n := |acts| - 1;
      CostumesStayWithin(c, us[..n + 1], acts[..n]);
      assert StepTo(c, us[n], acts[n], us[n + 1]);
      if Restarts(acts[n]) {
        RestartTakesMarks(c, us[n], acts[n]);
      } else {
        StepUpkept(c, us[n], acts[n]);
      }
    }
  }

  /** Until its quest is restarted, a mission once clear stays clear. */
  lemma {:induction false} MissionsStayClear(c: Catalog, us: seq<User>, acts: seq<Action>, q: int, id: int)
    requires Run(c, us, acts) && ClearIn(us[0].missions, q, id)
    requires forall a :: a in acts && Restarts(a) ==> a.q != q
    ensures ClearIn(us[|acts|].missions, q, id)
  {
    hide Enabled, Step, ClearIn;
    if acts != [] {
      var n := |acts| - 1;
      assert acts[n] in acts && forall a :: a in acts[..n] ==> a in acts;
      MissionsStayClear(c, us[..n + 1], acts[..n], q, id);
      assert StepTo(c, us[n], acts[n], us[n + 1]);
      if Restarts(acts[n]) {
        RestartTakesMarks(c, us[n], acts[n]);
      } else {
        StepUpkept(c, us[n], acts[n]);
      }
    }
  }
}
