/** What a finish reports, what it grants, and how it leaves the quest. */
module QuestReports {
  import opened Store
  import opened Masterdata
  import opened QuestFlow
  import opened QuestRuns
  import opened QuestUpkeep

  predicate Finishes(a: Action) {
    a.Finish? || a.SideFinish?()
  }

  /** The user the outcome is computed for: only the main finish initialises the quest. */
  function Evaluated(c: Catalog, u: User, a: Action): User
    requires Finishes(a)
  {
    if a.Finish? then InitQuest(c, u, a.q) else u
  }

  /** Everything an outcome lists as rewards. */
  function Reported(o: Outcome): seq<Grant> {
    o.firstClear + o.drops + o.replay + o.missionClear + o.missionComplete
  }

  // ---- Mission rewards ----

  /** An uncleared mission of the quest that carries a reward; one for completing all others needs some other. */
  predicate Carries(c: Catalog, u: User, q: int, id: int) {
    && id in c.MissionIds(q) && !ClearIn(u.missions, q, id)
    && (RegularMission(c, id) || (CompleteMission(c, id) && AnyRegular(c, c.MissionIds(q))))
    && GetOr(c.missionRewards, c.missions[id].rewardId, []) != []
  }

  lemma {:induction false} RegularRewardsEmpty(c: Catalog, u: User, q: int, ids: seq<int>)
    ensures RegularRewards(c, u, q, ids) == [] <==> forall id :: id in ids && RegularMission(c, id) && Uncleared(u, q, id) ==>
              GetOr(c.missionRewards, c.missions[id].rewardId, []) == []
  {
    if ids != [] {
      var n := |ids| - 1;
      RegularRewardsEmpty(c, u, q, ids[..n]);
      assert ids == ids[..n] + [ids[n]];
    }
  }

  lemma {:induction false} CompleteRewardsEmpty(c: Catalog, u: User, q: int, ids: seq<int>)
    ensures CompleteRewards(c, u, q, ids) == [] <==> forall id :: id in ids && CompleteMission(c, id) && Uncleared(u, q, id) ==>
              GetOr(c.missionRewards, c.missions[id].rewardId, []) == []
  {
    if ids != [] {
      var n := |ids| - 1;
      CompleteRewardsEmpty(c, u, q, ids[..n]);
      assert ids == ids[..n] + [ids[n]];
    }
  }

  lemma {:induction false} BigWinsEmpty(c: Catalog, u: User, q: int, ids: seq<int>)
    ensures BigWins(c, u, q, ids) == [] <==> forall id :: id in ids && CompleteMission(c, id) ==> !Uncleared(u, q, id)
  {
    if ids != [] {
      var n := |ids| - 1;
      BigWinsEmpty(c, u, q, ids[..n]);
      assert ids == ids[..n] + [ids[n]];
    }
  }

  /** A finish reports no mission rewards exactly when no uncleared mission of the quest carries one. */
  lemma MissionListsExactly(c: Catalog, u: User, q: int)
    requires CanEvaluate(c, u, q)
    ensures var o := Evaluate(c, u, q);
            o.missionClear == [] && o.missionComplete == [] <==> forall id :: !Carries(c, u, q, id)
  {
    hide GroupKnown, FirstClear, Drops, ReplayRewards, RegularRewards, CompleteRewards, BigWins, AnyRegular;
    RegularRewardsEmpty(c, u, q, c.MissionIds(q));
    CompleteRewardsEmpty(c, u, q, c.MissionIds(q));
    var o := Evaluate(c, u, q);
    if o.missionClear == [] && o.missionComplete == [] {
      forall id ensures !Carries(c, u, q, id) {
      }
    }
    if forall id :: !Carries(c, u, q, id) {
      forall id | id in c.MissionIds(q) && Uncleared(u, q, id) && RegularMission(c, id)
        ensures GetOr(c.missionRewards, c.missions[id].rewardId, []) == []
      {
        assert !Carries(c, u, q, id);
      }
      if AnyRegular(c, c.MissionIds(q)) {
        forall id | id in c.MissionIds(q) && Uncleared(u, q, id) && CompleteMission(c, id)
          ensures GetOr(c.missionRewards, c.missions[id].rewardId, []) == []
        {
          assert !Carries(c, u, q, id);
        }
      }
    }
  }

  lemma InitCarries(c: Catalog, u: User, q: int)
    ensures forall id :: Carries(c, InitQuest(c, u, q), q, id) == Carries(c, u, q, id)
  {
    hide MapMissions;
    forall id ensures ClearIn(InitQuest(c, u, q).missions, q, id) == ClearIn(u.missions, q, id) {
      NamedKeepsClear(u.missions, q, c.MissionIds(q), q, id);
    }
  }

  /** A finish grants what it reports exactly when there is nothing to report, or the player did not retire and no
      uncleared mission of the quest carries a reward: a retreat reports but grants nothing, and leaves the
      first-clear package to be paid later; mission rewards are reported but never granted. */
  lemma FinishGrantsReport(c: Catalog, u: User, a: Action)
    requires Finishes(a) && Enabled(c, u, a) && ScenesNumbered(c)
    ensures CanEvaluate(c, Evaluated(c, u, a), a.q)
    ensures var o, v := Evaluate(c, Evaluated(c, u, a), a.q), Step(c, u, a);
            && (v.granted == u.granted + Reported(o) <==>
                  Reported(o) == [] || (!a.retired && forall id :: !Carries(c, u, a.q, id)))
            && v.granted == u.granted + (if a.retired then [] else o.firstClear + o.drops + o.replay)
            && v.packages == u.packages + (if a.retired || Paid(u, a.q) then [] else [a.q])
            && Paid(v, a.q) == (Paid(u, a.q) || !a.retired)
  {
    FinishPays(c, u, a);
    hide Step, Enabled, CanEvaluate, Evaluate, InitQuest, ScenesNumbered, Carries, Paid;
    var e := Evaluated(c, u, a);
    InitCarries(c, u, a.q);
    MissionListsExactly(c, e, a.q);
    var o := Evaluate(c, e, a.q);
    SamePayment(u.granted, o.firstClear + o.drops + o.replay, o.missionClear, o.missionComplete, a.retired);
  }

  lemma SamePayment(granted: seq<Grant>, won: seq<Grant>, clear: seq<Grant>, complete: seq<Grant>, retired: bool)
    ensures granted + (if retired then [] else won) == granted + (won + clear + complete) <==>
            won + clear + complete == [] || (!retired && clear == [] && complete == [])
  {
    var paid := if retired then [] else won;
    assert |granted + (won + clear + complete)| == |granted| + |won| + |clear| + |complete|;
    assert |granted + paid| == |granted| + |paid|;
    if clear == [] && complete == [] {
      assert won + clear + complete == won;
    }
  }

  lemma FinishPays(c: Catalog, u: User, a: Action)
    requires Finishes(a) && Enabled(c, u, a) && ScenesNumbered(c)
    ensures CanEvaluate(c, Evaluated(c, u, a), a.q)
    ensures var o, v := Evaluate(c, Evaluated(c, u, a), a.q), Step(c, u, a);
            && v.granted == u.granted + (if a.retired then [] else o.firstClear + o.drops + o.replay)
            && v.packages == u.packages + (if a.retired || Paid(u, a.q) then [] else [a.q])
            && Paid(v, a.q) == (Paid(u, a.q) || !a.retired)
  {
    hide Step, NotBehind, StoryStep, StoryStays, CanEvaluate, Evaluate, MapMissions, ScenesNumbered;
    if a.Finish? {
      FinishStory(c, u, a);
    } else {
      SideFinishKeeps(c, u, a);
    }
  }

  const NO_CATALOG := Catalog(
    map[], map[], map[], map[], map[], map[], {}, map[], map[], map[], map[], map[], map[], map[], map[], map[],
    map[], {}, [], [], map[], map[], map[], map[], 0, 0)

  const ONE_MISSION := NO_CATALOG.(
    quests := map[1 := QuestDef(0, 0, 0, 0, 0, false, true, 0, 0, 0)],
    missionIds := map[1 := [7]],
    missions := map[7 := MissionDef(false, 3)],
    missionRewards := map[3 := [Grant(5, 9, 1)]])

  /** A won hunt of a quest with one rewarded mission reports the reward and grants nothing. */
  lemma MissionRewardUngranted(u: User)
    requires 1 in u.quests && (1, 7) !in u.missions
    ensures var a := HuntFinish(1, false, false, 5);
            && Enabled(ONE_MISSION, u, a)
            && Evaluate(ONE_MISSION, u, 1).missionClear == [Grant(5, 9, 1)]
            && Step(ONE_MISSION, u, a).granted == u.granted
  {
    hide Step, MapMissions;
    var c, a := ONE_MISSION, HuntFinish(1, false, false, 5);
    assert c.MissionIds(1) == [7] && [7][..0] == [];
    assert Enabled(c, u, a);
    FinishPays(c, u, a);
    assert RegularRewards(c, u, 1, [7][..0]) == [] && RegularMission(c, 7) && Uncleared(u, 1, 7);
    assert RegularRewards(c, u, 1, [7]) == [Grant(5, 9, 1)];
    var o := Evaluate(c, u, 1);
    assert o.firstClear == [] && o.drops == [] && o.replay == [];
  }

  // ---- Once between restarts ----

  lemma DoneReportsNothing(c: Catalog, u: User, q: int)
    requires CanEvaluate(c, u, q) && Done(c, u, q)
    ensures var o := Evaluate(c, u, q); o.missionClear == [] && o.missionComplete == [] && o.bigWins == [] && !o.isBigWin
  {
    hide CanEvaluate;
    assert forall id :: !Carries(c, u, q, id);
    MissionListsExactly(c, u, q);
    EvaluateKnown(c, u, q);
    BigWinsEmpty(c, u, q, c.MissionIds(q));
    WinsAreBigWins(c, u, q);
  }

  lemma WinsAreBigWins(c: Catalog, u: User, q: int)
    requires CanEvaluate(c, u, q)
    ensures var o := Evaluate(c, u, q);
            (o.bigWins == [] || o.bigWins == BigWins(c, u, q, c.MissionIds(q))) && o.isBigWin == (o.bigWins != [])
  {
    hide BigWins, GroupKnown, FirstClear, Drops, ReplayRewards, RegularRewards, CompleteRewards, AnyRegular;
  }

  /** Mission rewards are reported at most once between restarts: after a finish of the quest, won or not and of any
      kind, no run without a restart of it leads to an outcome that lists them again. */
  lemma MissionRewardsOnce(c: Catalog, us: seq<User>, acts: seq<Action>, q: int)
    requires Run(c, us, acts) && acts != [] && Finishes(acts[0]) && acts[0].q == q
    requires forall a :: a in acts && Restarts(a) ==> a.q != q
    requires CanEvaluate(c, us[|acts|], q)
    ensures var o := Evaluate(c, us[|acts|], q);
            o.missionClear == [] && o.missionComplete == [] && o.bigWins == [] && !o.isBigWin
  {
    hide Enabled, Step, ClearIn, Evaluate, CanEvaluate;
    assert StepTo(c, us[0], acts[0], us[1]);
    if acts[0].Finish? {
      FinishedUpkept(c, us[0], acts[0]);
    } else {
      SideFinishUpkept(c, us[0], acts[0]);
    }
    SubRun(c, us, acts, 1, |acts|);
    assert us[1..|acts| + 1][0] == us[1] && us[1..|acts| + 1][|acts| - 1] == us[|acts|];
    assert forall a :: a in acts[1..] ==> a in acts;
    forall id | id in c.MissionIds(q) ensures ClearIn(us[|acts|].missions, q, id) {
      MissionsStayClear(c, us[1..|acts| + 1], acts[1..|acts|], q, id);
    }
    DoneReportsNothing(c, us[|acts|], q);
  }

  // ---- How the quest is left ----

  /** A finish leaves the quest active exactly when the player retired from an active one and, for a main quest,
      it was never cleared: quests off the main flow stay active even if they had been cleared before. */
  lemma FinishSettles(c: Catalog, u: User, a: Action)
    requires Finishes(a) && Enabled(c, u, a) && ScenesNumbered(c)
    ensures QuestOf(Step(c, u, a), a.q).state.Active? <==>
            a.retired && QuestOf(u, a.q).state.Active? && (a.Finish? ==> QuestOf(u, a.q).clears <= 0)
  {
    if a.SideFinish?() {
      SideFinishSettles(c, u, a);
    } else {
      MainFinishSettles(c, u, a);
    }
  }

  lemma SideFinishSettles(c: Catalog, u: User, a: Action)
    requires a.SideFinish?() && Enabled(c, u, a)
    ensures QuestOf(Step(c, u, a), a.q).state.Active? <==> a.retired && QuestOf(u, a.q).state.Active?
  {
    hide Resolved, Refunded, CanEvaluate, MapMissions;
    EvaluateKnown(c, u, a.q);
    ResolvedClears(c, u, a.q, a.retired, a.now);
    RefundKeeps(c, Resolved(c, u, a.q, a.retired, a.now), a.q, a.retired, a.annihilated, a.now);
  }

  lemma MainFinishSettles(c: Catalog, u: User, a: Action)
    requires a.Finish? && Enabled(c, u, a)
    ensures QuestOf(Step(c, u, a), a.q).state.Active? <==>
            a.retired && QuestOf(u, a.q).state.Active? && QuestOf(u, a.q).clears <= 0
  {
    hide MapMissions, Resolved, Refunded, Reclosed, FlowEnded, Advance, CanEvaluate, HasLastScene;
    var q := a.q;
    var v := InitQuest(c, u, q);
    EvaluateKnown(c, v, q);
    var wasReplay, wasMenuReplay := u.main.flow == ReplayFlow, u.main.saved.active;
    var moves := !a.retired && c.Playable(q) && !wasReplay && !wasMenuReplay;
    ResolvedClears(c, v, q, a.retired, a.now);
    var won := Resolved(c, v, q, a.retired, a.now);
    if moves {
      LastSceneKnown(c, q);
      AdvanceMoves(c, won, q, c.Scenes(q)[|c.Scenes(q)| - 1], a.clock);
    }
    var moved := if moves then Advance(c, won, q, c.Scenes(q)[|c.Scenes(q)| - 1], a.clock) else won;
    assert QuestOf(moved, q) == QuestOf(won, q);
    EndingSettles(c, moved, q, a.retired, a.annihilated, wasReplay, wasMenuReplay, a.now);
  }

  lemma EndingSettles(c: Catalog, u: User, q: int, retired: bool, annihilated: bool, wasReplay: bool, wasMenuReplay: bool, now: int)
    requires q in c.quests
    ensures var v := FlowEnded(Reclosed(Refunded(c, u, q, retired, annihilated, now), q, retired), wasReplay, wasMenuReplay, now);
            QuestOf(v, q).state.Active? <==> QuestOf(u, q).state.Active? && !(retired && QuestOf(u, q).clears > 0)
  {
    hide Refunded, FlowEnded;
    RefundKeeps(c, u, q, retired, annihilated, now);
    var w := Refunded(c, u, q, retired, annihilated, now);
    FlowEndedStory(Reclosed(w, q, retired), wasReplay, wasMenuReplay, now);
  }

  lemma ResolvedClears(c: Catalog, u: User, q: int, retired: bool, now: int)
    requires CanEvaluate(c, u, q)
    ensures if retired then Resolved(c, u, q, retired, now) == u else QuestOf(Resolved(c, u, q, retired, now), q).state == Cleared
  {
    hide Victory, Evaluate, FirstClear, GroupKnown;
    EvaluateReports(c, u, q);
    if !retired {
      VictoryPays(c, u, q, Evaluate(c, u, q), now);
    }
  }
}
