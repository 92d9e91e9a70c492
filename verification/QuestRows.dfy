/** What the start and finish of a quest write, said field by field on a handler call and the rows before it: the
    quest's own row, the stamina, and the first-clear package found by its place among the switches. */
module QuestRows {
  import opened Wrappers
  import opened Store
  import opened Stamina
  import opened Masterdata
  import opened QuestFlow
  import opened QuestRuns
  import opened QuestUpkeep
  import opened QuestReports

  // ---- Finishes ----

  lemma VictoryRow(c: Catalog, u: User, q: int, o: Outcome, now: int)
    requires CanEvaluate(c, u, q)
    ensures var w := u.quests[q];
            Victory(c, u, q, o, now).quests ==
            u.quests[q := w.(state := Cleared, clears := w.clears + 1, dailyClears := w.dailyClears + 1, lastClear := now,
                             battleOnly := false, rewardGranted := true)]
  {
    hide GroupKnown, ApplyRewards;
    if !u.quests[q].rewardGranted {
      RewardsKeep(c, u, q, now);
    }
  }

  /** The row a finish leaves: won, it is cleared once more; given up, it is as before, but a main quest that was
      cleared earlier is cleared again. */
  function FinishedRow(w: Quest, a: Action): Quest
    requires Finishes(a)
  {
    if a.retired
    then w.(state := if a.Finish? && w.state.Active? && w.clears > 0 then Cleared else w.state)
    else w.(state := Cleared, clears := w.clears + 1, dailyClears := w.dailyClears + 1, lastClear := a.now,
            battleOnly := false, rewardGranted := true)
  }

  /** Every finish writes its own quest's row and no other. */
  lemma FinishWritesRow(c: Catalog, u: User, a: Action)
    requires Finishes(a) && Enabled(c, u, a)
    ensures Step(c, u, a).quests ==
            u.quests[a.q := FinishedRow(QuestOf(u, a.q).(id := if a.Finish? then a.q else QuestOf(u, a.q).id), a)]
  {
    if a.Finish? {
      MainFinishRow(c, u, a);
    } else {
      SideFinishRow(c, u, a);
    }
  }

  lemma ResolvedRow(c: Catalog, u: User, q: int, a: Action)
    requires CanEvaluate(c, u, q) && Finishes(a)
    ensures var v := Resolved(c, u, q, a.retired, a.now);
            v.quests == if a.retired then u.quests else u.quests[q := FinishedRow(u.quests[q], a)]
  {
    hide Victory, Evaluate, GroupKnown;
    if !a.retired {
      VictoryRow(c, u, q, Evaluate(c, u, q), a.now);
    }
  }

  lemma SideFinishRow(c: Catalog, u: User, a: Action)
    requires a.SideFinish?() && Enabled(c, u, a)
    ensures Step(c, u, a).quests == u.quests[a.q := FinishedRow(QuestOf(u, a.q), a)]
  {
    hide Resolved, Refunded, CanEvaluate, MapMissions, FinishedRow;
    EvaluateKnown(c, u, a.q);
    ResolvedRow(c, u, a.q, a);
    RefundKeeps(c, Resolved(c, u, a.q, a.retired, a.now), a.q, a.retired, a.annihilated, a.now);
    if a.retired {
      assert FinishedRow(u.quests[a.q], a) == u.quests[a.q] by {
        RetiredRow(u.quests[a.q], a);
      }
    }
  }

  lemma RetiredRow(w: Quest, a: Action)
    requires a.SideFinish?() && a.retired
    ensures FinishedRow(w, a) == w
  {
  }

  lemma MainFinishRow(c: Catalog, u: User, a: Action)
    requires a.Finish? && CanFinish(c, u, a.q, a.retired)
    ensures Finished(c, u, a.q, a.retired, a.annihilated, a.now, a.clock).quests == u.quests[a.q := FinishedRow(QuestOf(u, a.q).(id := a.q), a)]
  {
    hide InitQuest, Resolved, Refunded, Reclosed, FlowEnded, Advance, CanEvaluate, FinishedRow, MapMissions, QuestOf;
    var q := a.q;
    var v := InitQuest(c, u, q);
    InitRow(c, u, q);
    EvaluateKnown(c, v, q);
    var wasReplay, wasMenuReplay := u.main.flow == ReplayFlow, u.main.saved.active;
    var moves := !a.retired && c.Playable(q) && !wasReplay && !wasMenuReplay;
    LastSceneKnown(c, q);
    WonRow(c, v, q, a, moves);
    var won := Resolved(c, v, q, a.retired, a.now);
    var moved := if moves then Advance(c, won, q, c.Scenes(q)[|c.Scenes(q)| - 1], a.clock) else won;
    EndingRow(c, moved, q, a, wasReplay, wasMenuReplay);
    Overwritten(u.quests, q, v.quests[q], FinishedRow(v.quests[q], a));
    var x := Reclosed(Refunded(c, moved, q, a.retired, a.annihilated, a.now), q, a.retired);
    assert Finished(c, u, q, a.retired, a.annihilated, a.now, a.clock) == ClearMissions(c, FlowEnded(x, wasReplay, wasMenuReplay, a.now), q, a.now);
  }

  lemma Overwritten<K, V>(m: map<K, V>, k: K, a: V, b: V)
    ensures m[k := a][k := b] == m[k := b]
  {
  }

  lemma InitRow(c: Catalog, u: User, q: int)
    ensures var v := InitQuest(c, u, q); v.quests == u.quests[q := QuestOf(u, q).(id := q)] && v.main == u.main
  {
    hide MapMissions;
  }

  lemma WonRow(c: Catalog, u: User, q: int, a: Action, moves: bool)
    requires a.Finish? && CanEvaluate(c, u, q)
    requires moves ==> c.Scenes(q) != []
    requires moves ==> CanAdvance(c, Resolved(c, u, q, a.retired, a.now), q, c.Scenes(q)[|c.Scenes(q)| - 1])
    ensures var won := Resolved(c, u, q, a.retired, a.now);
            var v := if moves then Advance(c, won, q, c.Scenes(q)[|c.Scenes(q)| - 1], a.clock) else won;
            v.quests == if a.retired then u.quests else u.quests[q := FinishedRow(u.quests[q], a)]
  {
    hide Resolved, Advance, CanEvaluate, FinishedRow, CanAdvance;
    ResolvedRow(c, u, q, a);
    if moves {
      AdvanceMoves(c, Resolved(c, u, q, a.retired, a.now), q, c.Scenes(q)[|c.Scenes(q)| - 1], a.clock);
    }
  }

  lemma EndingRow(c: Catalog, u: User, q: int, a: Action, wasReplay: bool, wasMenuReplay: bool)
    requires a.Finish? && q in u.quests && q in c.quests
    ensures var v := FlowEnded(Reclosed(Refunded(c, u, q, a.retired, a.annihilated, a.now), q, a.retired), wasReplay, wasMenuReplay, a.now);
            v.quests == if a.retired then u.quests[q := FinishedRow(u.quests[q], a)] else u.quests
  {
    hide Refunded, Reclosed, FlowEnded, FinishedRow;
    RefundKeeps(c, u, q, a.retired, a.annihilated, a.now);
    var w := Refunded(c, u, q, a.retired, a.annihilated, a.now);
    ReclosedRow(w, q, a);
    FlowEndedStory(Reclosed(w, q, a.retired), wasReplay, wasMenuReplay, a.now);
  }

  lemma ReclosedRow(u: User, q: int, a: Action)
    requires a.Finish? && q in u.quests
    ensures Reclosed(u, q, a.retired).quests == if a.retired then u.quests[q := FinishedRow(u.quests[q], a)] else u.quests
  {
    var w := u.quests[q];
    assert QuestOf(u, q) == w;
    if a.retired && !(w.clears > 0 && w.state.Active?) {
      assert FinishedRow(w, a) == w;
    }
  }

  // ---- Starts ----

  /** The row a start of a main quest leaves. A quest cleared before or played in battle becomes active; one that
      runs in the background, or is not counted, is cleared on the spot. */
  lemma StartWritesRow(c: Catalog, u: User, a: Action)
    requires a.Start? && Enabled(c, u, a)
    ensures a.q in c.quests
    ensures var w, def := QuestOf(u, a.q), c.quests[a.q];
            var r := w.(id := a.q, battleOnly := a.battleOnly, deck := a.deck);
            Step(c, u, a).quests ==
            u.quests[a.q := if w.state == Cleared || (def.counted && !def.inBackground)
                            then r.(state := Active, started := a.now)
                            else r.(state := Cleared, clears := 1, dailyClears := 1, lastClear := a.now)]
  {
    hide Started;
    StartedRow(c, u, a);
  }

  lemma StartedRow(c: Catalog, u: User, a: Action)
    requires a.Start? && CanStart(c, u, a.q)
    ensures var v := Started(c, u, a.q, a.battleOnly, a.mainFlow, a.deck, a.replay, a.now, a.clock);
            v.quests == u.quests[a.q := QuestEntered(c, QuestOf(u, a.q).(id := a.q), a.q, a.battleOnly, a.deck, a.now)]
  {
    hide Entered, InStory, Ahead, HasLastScene, QuestEntered;
    var q := a.q;
    EnteredKeeps(c, u, q, a.battleOnly, a.mainFlow, a.replay, a.now);
    if !QuestOf(u, q).state.Cleared? {
      InStoryRow(c, Entered(c, u, q, a.battleOnly, a.mainFlow, a.replay, a.now), q, a.clock);
    }
  }

  lemma InStoryRow(c: Catalog, u: User, q: int, clock: int)
    requires q in c.quests && StoryReady(c, u, q)
    ensures var v := InStory(c, u, q, clock); v.quests == u.quests && v.status == u.status
  {
    hide Ahead, HasLastScene, Advance, ToMainFlow;
    ToMainFlowKeeps(u);
    if !c.Playable(q) && c.Scenes(q) != [] {
      ToMainFlowKeeps(Advance(c, u, q, c.Scenes(q)[0], clock));
      AdvanceMoves(c, u, q, c.Scenes(q)[0], clock);
    }
  }

  /** A quest off the main flow becomes active, whatever it was; only an event start sends the battle-only flag. */
  lemma SideStartWritesRow(c: Catalog, u: User, a: Action)
    requires a.SideStart?() && Enabled(c, u, a)
    ensures var w := QuestOf(u, a.q);
            Step(c, u, a).quests ==
            u.quests[a.q := w.(id := a.q, state := Active, deck := a.deck, started := a.now,
                               battleOnly := if a.EventStart? then a.battleOnly else w.battleOnly)]
  {
    hide SideStarted, QuestOf;
    SideStartedRow(c, u, a.q, if a.EventStart? then Some(a.battleOnly) else None, a.deck, a.now);
  }

  lemma SideStartedRow(c: Catalog, u: User, q: int, battleOnly: Option<bool>, deck: int, now: int)
    requires q in c.quests
    ensures var v, w := SideStarted(c, u, q, battleOnly, deck, now), QuestOf(u, q);
            && v.quests == u.quests[q := w.(id := q, state := Active, deck := deck, started := now,
                                            battleOnly := if battleOnly.Some? then battleOnly.value else w.battleOnly)]
            && v.status == PayStamina(c, u, q, now).status
  {
    hide MapMissions, Consumed;
    PayKeeps(c, InitQuest(c, u, q), q, now);
  }

  // ---- Stamina ----

  /** Stamina in thousandths as of now: one for every 180 ms since the clock was set, up to the level's maximum. */
  function StaminaNow(c: Catalog, st: Status, now: int): int {
    var most := GetOr(c.maxStamina, st.level, 0) * 1000;
    if st.staminaMilli >= most || now <= st.staminaUpdated then st.staminaMilli
    else Min(st.staminaMilli + (now - st.staminaUpdated) / 180, most)
  }

  /** A start costs the quest's stamina, a thousand per unit, down to none, and sets the clock; a quest without cost
      leaves both alone. */
  lemma StartCosts(c: Catalog, u: User, a: Action)
    requires (a.Start? || a.SideStart?()) && Enabled(c, u, a)
    ensures a.q in c.quests
    ensures var cost := c.quests[a.q].stamina;
            Step(c, u, a).status ==
            if cost <= 0 then u.status
            else u.status.(staminaMilli := Max(StaminaNow(c, u.status, a.now) - 1000 * cost, 0), staminaUpdated := a.now)
  {
    hide Started, SideStarted, PayStamina;
    PayAmount(c, u, a.q, a.now);
    if a.Start? {
      StartedStatus(c, u, a);
    } else {
      SideStartedRow(c, u, a.q, if a.EventStart? then Some(a.battleOnly) else None, a.deck, a.now);
    }
  }

  lemma PayAmount(c: Catalog, u: User, q: int, now: int)
    requires q in c.quests
    ensures var cost := c.quests[q].stamina;
            PayStamina(c, u, q, now).status ==
            if cost <= 0 then u.status
            else u.status.(staminaMilli := Max(StaminaNow(c, u.status, now) - 1000 * cost, 0), staminaUpdated := now)
  {
  }

  lemma StartedStatus(c: Catalog, u: User, a: Action)
    requires a.Start? && CanStart(c, u, a.q)
    ensures var v := Started(c, u, a.q, a.battleOnly, a.mainFlow, a.deck, a.replay, a.now, a.clock);
            v.status == PayStamina(c, u, a.q, a.now).status
  {
    hide Entered, InStory, Ahead, HasLastScene, QuestEntered, PayStamina;
    var q := a.q;
    EnteredKeeps(c, u, q, a.battleOnly, a.mainFlow, a.replay, a.now);
    EnteredStatus(c, u, q, a.battleOnly, a.mainFlow, a.replay, a.now);
    if !QuestOf(u, q).state.Cleared? {
      InStoryRow(c, Entered(c, u, q, a.battleOnly, a.mainFlow, a.replay, a.now), q, a.clock);
    }
  }

  lemma EnteredStatus(c: Catalog, u: User, q: int, battleOnly: bool, mainFlow: bool, replay: bool, now: int)
    requires q in c.quests
    ensures Entered(c, u, q, battleOnly, mainFlow, replay, now).status == PayStamina(c, u, q, now).status
  {
    hide EnterReplay, PayStamina, MapMissions;
    EnterKeeps(c, PayStamina(c, InitQuest(c, u, q), q, now), q, battleOnly, mainFlow, replay, now);
    SamePrice(c, u, InitQuest(c, u, q), q, now);
  }

  lemma SamePrice(c: Catalog, u: User, v: User, q: int, now: int)
    requires q in c.quests && u.status == v.status
    ensures PayStamina(c, u, q, now).status == PayStamina(c, v, q, now).status
  {
    hide Consumed;
  }

  /** A retreat gives back all the stamina but one unit, beyond the maximum if need be; after an annihilation nothing
      comes back. */
  lemma RetreatRefunds(c: Catalog, u: User, a: Action)
    requires Finishes(a) && Enabled(c, u, a) && a.retired
    ensures a.q in c.quests
    ensures var cost := c.quests[a.q].stamina;
            Step(c, u, a).status ==
            if a.annihilated || cost <= 1 then u.status
            else u.status.(staminaMilli := StaminaNow(c, u.status, a.now) + 1000 * (cost - 1), staminaUpdated := a.now)
  {
    hide Refunded, Finished, SideFinished, CanEvaluate, MapMissions;
    EvaluateKnown(c, if a.Finish? then InitQuest(c, u, a.q) else u, a.q);
    RefundAmount(c, u, a.q, a.annihilated, a.now);
    if a.Finish? {
      RetreatStatus(c, u, a);
    } else {
      SideRetreat(c, u, a);
    }
  }

  lemma RefundAmount(c: Catalog, u: User, q: int, annihilated: bool, now: int)
    requires q in c.quests
    ensures var cost := c.quests[q].stamina;
            Refunded(c, u, q, true, annihilated, now).status ==
            if annihilated || cost <= 1 then u.status
            else u.status.(staminaMilli := StaminaNow(c, u.status, now) + 1000 * (cost - 1), staminaUpdated := now)
  {
  }

  lemma SameRefund(c: Catalog, u: User, v: User, q: int, annihilated: bool, now: int)
    requires q in c.quests && u.status == v.status
    ensures Refunded(c, u, q, true, annihilated, now).status == Refunded(c, v, q, true, annihilated, now).status
  {
    hide Recovered;
  }

  lemma SideRetreat(c: Catalog, u: User, a: Action)
    requires a.SideFinish?() && CanEvaluate(c, u, a.q) && a.retired && a.q in c.quests
    ensures SideFinished(c, u, a.q, true, a.annihilated, a.now) == Refunded(c, u, a.q, true, a.annihilated, a.now)
  {
    hide Refunded, Resolved;
    RetiredResolves(c, u, a.q, a.now);
  }

  lemma RetreatStatus(c: Catalog, u: User, a: Action)
    requires a.Finish? && CanFinish(c, u, a.q, true) && a.q in c.quests
    ensures Finished(c, u, a.q, true, a.annihilated, a.now, a.clock).status ==
            Refunded(c, u, a.q, true, a.annihilated, a.now).status
  {
    hide MapMissions, Resolved, Refunded, Reclosed, FlowEnded, CanEvaluate;
    var q := a.q;
    var v := InitQuest(c, u, q);
    RetiredResolves(c, v, q, a.now);
    SameRefund(c, u, v, q, a.annihilated, a.now);
    var w := Refunded(c, v, q, true, a.annihilated, a.now);
    ReclosedKeeps(w, q, true);
    FlowEndedStory(Reclosed(w, q, true), u.main.flow == ReplayFlow, u.main.saved.active, a.now);
  }

  // ---- The first-clear package, by its place among the switches ----

  predicate Holds(u: User, s: Switch) {
    s.conditionQuest in u.quests && u.quests[s.conditionQuest].state == Cleared
  }

  ghost predicate FirstToHold(u: User, rows: seq<Switch>, i: nat) {
    i < |rows| && Holds(u, rows[i]) && forall j :: 0 <= j < i ==> !Holds(u, rows[j])
  }

  /** The package is that of the first switch whose condition quest is cleared, and the quest's own if there is none. */
  ghost predicate IsPackage(c: Catalog, u: User, q: int, package: seq<Grant>)
    requires q in c.quests
  {
    var rows := GetOr(c.switches, q, []);
    && (forall i: nat :: FirstToHold(u, rows, i) ==> package == GetOr(c.firstClearRewards, rows[i].group, []))
    && ((forall s :: s in rows ==> !Holds(u, s)) ==> package == GetOr(c.firstClearRewards, c.quests[q].firstClearGroup, []))
  }

  lemma {:induction false} SwitchAt(u: User, rows: seq<Switch>, group: int, i: nat)
    requires SwitchesKnown(u, rows) && FirstToHold(u, rows, i)
    ensures SwitchedGroup(u, rows, group) == rows[i].group
  {
    if i > 0 {
      assert !Holds(u, rows[0]);
      assert forall j :: 0 <= j < i - 1 ==> rows[1..][j] == rows[j + 1];
      SwitchAt(u, rows[1..], group, i - 1);
    }
  }

  lemma {:induction false} NoSwitch(u: User, rows: seq<Switch>, group: int)
    requires SwitchesKnown(u, rows) && forall s :: s in rows ==> !Holds(u, s)
    ensures SwitchedGroup(u, rows, group) == group
  {
    if rows != [] {
      assert !Holds(u, rows[0]);
      NoSwitch(u, rows[1..], group);
    }
  }

  lemma PackageFound(c: Catalog, u: User, q: int)
    requires q in c.quests && GroupKnown(c, u, q)
    ensures IsPackage(c, u, q, FirstClear(c, u, q))
  {
    hide SwitchesKnown, SwitchedGroup, Holds;
    var rows := GetOr(c.switches, q, []);
    forall i: nat | FirstToHold(u, rows, i) ensures FirstClear(c, u, q) == GetOr(c.firstClearRewards, rows[i].group, []) {
      SwitchAt(u, rows, c.quests[q].firstClearGroup, i);
    }
    if forall s :: s in rows ==> !Holds(u, s) {
      NoSwitch(u, rows, c.quests[q].firstClearGroup);
    }
  }

  lemma SamePackage(c: Catalog, u: User, v: User, q: int, package: seq<Grant>)
    requires q in c.quests && IsPackage(c, v, q, package)
    requires forall s :: Holds(v, s) == Holds(u, s)
    ensures IsPackage(c, u, q, package)
  {
    hide Holds;
    var rows := GetOr(c.switches, q, []);
    forall i: nat | FirstToHold(u, rows, i) ensures FirstToHold(v, rows, i) {
    }
  }

  lemma InitHolds(c: Catalog, u: User, q: int)
    ensures forall s :: Holds(InitQuest(c, u, q), s) == Holds(u, s)
  {
    hide MapMissions;
  }

  /** What a finish reports as first-clear rewards. */
  lemma ReportsPackage(c: Catalog, u: User, q: int)
    requires CanEvaluate(c, u, q) && !u.quests[q].rewardGranted
    ensures IsPackage(c, u, q, Evaluate(c, u, q).firstClear)
  {
    hide GroupKnown, FirstClear, IsPackage, Drops, ReplayRewards, RegularRewards, CompleteRewards, BigWins;
    PackageFound(c, u, q);
  }

  /** What the first victory grants: that package, then the drops and the replay rewards of the report. */
  lemma WinGrantsPackage(c: Catalog, u: User, a: Action)
    requires Finishes(a) && Enabled(c, u, a) && ScenesNumbered(c)
    requires !a.retired && !QuestOf(u, a.q).rewardGranted
    ensures CanEvaluate(c, Evaluated(c, u, a), a.q)
    ensures var o := Evaluate(c, Evaluated(c, u, a), a.q);
            && IsPackage(c, u, a.q, o.firstClear)
            && Step(c, u, a).granted == u.granted + o.firstClear + o.drops + o.replay
  {
    hide Step, Enabled, Evaluate, CanEvaluate, InitQuest, IsPackage, Holds, ScenesNumbered;
    FinishPays(c, u, a);
    var v := Evaluated(c, u, a);
    EvaluateKnown(c, v, a.q);
    InitRow(c, u, a.q);
    InitHolds(c, u, a.q);
    ReportsPackage(c, v, a.q);
    SamePackage(c, u, v, a.q, Evaluate(c, v, a.q).firstClear);
    var o := Evaluate(c, v, a.q);
    assert u.granted + (o.firstClear + o.drops + o.replay) == u.granted + o.firstClear + o.drops + o.replay;
  }

  // ---- Restarts, skips and chains ----

  /** A restart makes its quest active as of now and touches no other row. */
  lemma RestartWritesRow(c: Catalog, u: User, a: Action)
    requires a.Restart? || a.EventRestart? || a.ExtraRestart?
    ensures Step(c, u, a).quests == u.quests[a.q := QuestOf(u, a.q).(id := a.q, state := Active, started := a.now)]
  {
    hide MapMissions, ToMainFlow;
    ToMainFlowKeeps(u);
  }

  /** A skip counts its runs as clears, whatever the count, and leaves state, flag and every other row. */
  lemma SkipWritesRow(c: Catalog, u: User, a: Action)
    requires a.Skip? && Enabled(c, u, a)
    ensures var w := QuestOf(u, a.q);
            Step(c, u, a).quests ==
            u.quests[a.q := w.(clears := w.clears + a.count, dailyClears := w.dailyClears + a.count, lastClear := a.now)]
  {
    hide SkipPaid, SkipRuns;
    SkipPaidKeeps(c, u, a.count, a.now);
    SkipRunsKeep(c, SkipPaid(c, u, a.count, a.now), a.q, if a.count < 0 then 0 else a.count, a.now);
  }

  /** The quest the chain leaves: that of the scene the progress pointer stands at, when it is another one. */
  predicate Leaves(c: Catalog, u: User, scene: int, prev: int)
    requires scene in c.scenes
  {
    && u.main.progressScene != 0 && u.main.progressScene in c.scenes
    && prev == c.scenes[u.main.progressScene].questId != c.scenes[scene].questId
    && prev in c.quests && QuestOf(u, prev).state != Cleared
  }

  /** A scene of the next quest in a chain clears the one left behind, once more, and pays its package if it was not
      paid. */
  lemma ChainWritesRow(c: Catalog, u: User, a: Action, prev: int)
    requires a.MainQuestScene? && Enabled(c, u, a) && Leaves(c, u, a.scene, prev)
    ensures var v, w := Step(c, u, a), QuestOf(u, prev);
            v.quests == u.quests[prev := w.(id := prev, state := Cleared, clears := w.clears + 1, dailyClears := w.dailyClears + 1,
                                            lastClear := a.clock, battleOnly := false, rewardGranted := true)]
    ensures var v := Step(c, u, a);
            exists p ::
              (if QuestOf(u, prev).rewardGranted then p == [] else IsPackage(c, u, prev, p)) && v.granted == u.granted + p
  {
    hide Finalized, PlayedScene, BackgroundScene, HasLastScene, CanFinalize, IsPackage;
    FinalizedRow(c, u, prev, a.clock);
    ScenesWriteNoRow(c, u, a);
  }

  lemma ScenesWriteNoRow(c: Catalog, u: User, a: Action)
    requires a.MainQuestScene? && CanProgressMainQuest(c, u, a.scene)
    ensures var v, w := LeftBehind(c, u, c.scenes[a.scene].questId, a.clock), Step(c, u, a);
            w.quests == v.quests && w.granted == v.granted
  {
    hide LeftBehind, PlayedScene, BackgroundScene, HasLastScene, CanFinalize, ChainPrevious;
    var q := c.scenes[a.scene].questId;
    var v := LeftBehind(c, u, q, a.clock);
    if c.Playable(q) {
      PlayedWritesNoRow(c, v, a.scene, a.clock2);
    } else {
      BackgroundWritesNoRow(c, v, q, a.scene);
    }
  }

  lemma PlayedWritesNoRow(c: Catalog, u: User, scene: int, clock: int)
    requires scene in c.scenes
    ensures var v := PlayedScene(c, u, scene, clock); v.quests == u.quests && v.granted == u.granted
  {
    hide MapMissions, Ahead;
  }

  lemma BackgroundWritesNoRow(c: Catalog, u: User, q: int, scene: int)
    requires HasLastScene(c, q)
    ensures var v := BackgroundScene(c, u, q, scene); v.quests == u.quests && v.granted == u.granted
  {
    hide LastScene, HasLastScene, Ahead;
  }

  /** Every other scene writes no row. */
  lemma OtherScenesWriteNoRow(c: Catalog, u: User, a: Action)
    requires a.MainFlowScene? || a.ReplayScene? || a.EventScene? || a.ExtraScene?
    requires Enabled(c, u, a)
    ensures Step(c, u, a).quests == u.quests
  {
    hide Advance, SceneEffects, AtEventScene, AtExtraScene, Ahead, HasLastScene;
    if a.MainFlowScene? {
      AdvanceMoves(c, u, c.scenes[a.scene].questId, a.scene, a.clock);
    } else if a.EventScene? || a.ExtraScene? {
      AtSceneKeeps(c, u, a.scene);
      if a.scene in c.scenes {
        SceneEffectsKeep(c, if a.EventScene? then AtEventScene(c, u, a.scene) else AtExtraScene(c, u, a.scene), a.scene, a.now);
      }
    }
  }

  lemma FinalizedRow(c: Catalog, u: User, q: int, now: int)
    requires q in c.quests && CanFinalize(c, u, q) && QuestOf(u, q).state != Cleared
    ensures var v, w := Finalized(c, u, q, now), QuestOf(u, q);
            v.quests == u.quests[q := w.(id := q, state := Cleared, clears := w.clears + 1, dailyClears := w.dailyClears + 1,
                                         lastClear := now, battleOnly := false, rewardGranted := true)]
    ensures var v := Finalized(c, u, q, now);
            exists p :: (if QuestOf(u, q).rewardGranted then p == [] else IsPackage(c, u, q, p)) && v.granted == u.granted + p
  {
    hide MapMissions, ApplyRewards, GroupKnown, FirstClear, IsPackage, Holds;
    var v := InitQuest(c, u, q);
    if !QuestOf(u, q).rewardGranted {
      RewardsKeep(c, v, q, now);
      PackageFound(c, v, q);
      InitHolds(c, u, q);
      SamePackage(c, u, v, q, FirstClear(c, v, q));
      assert Finalized(c, u, q, now).granted == u.granted + FirstClear(c, v, q);
    } else {
      assert Finalized(c, u, q, now).granted == u.granted + [];
    }
  }

  // ---- Missions ----

  lemma {:induction false} MissionAt(ms: map<MissionKey, Mission>, q: int, ids: seq<int>, f: (int, Mission) -> Mission, p: int, id: int)
    requires forall i, m :: f(i, f(i, m)) == f(i, m)
    ensures var k, r := (p, id), MapMissions(ms, q, ids, f);
            if p == q && id in ids then k in r && r[k] == f(id, GetOr(ms, k, NO_MISSION))
            else (k in r <==> k in ms) && (k in ms ==> r[k] == ms[k])
  {
    if ids != [] {
      var n := |ids| - 1;
      MissionAt(ms, q, ids[..n], f, p, id);
      assert ids == ids[..n] + [ids[n]];
      MissionAt(ms, q, ids[..n], f, q, ids[n]);
    }
  }

  ghost predicate MissionReads(ms: map<MissionKey, Mission>, q: int, ids: seq<int>, row: (int, Mission) -> Mission, p: int, id: int,
                               ns: map<MissionKey, Mission>)
  {
    if p == q && id in ids
    then (p, id) in ns && ns[(p, id)] == row(id, GetOr(ms, (p, id), Mission(0, 0, 0, false, 0)))
    else ((p, id) in ns <==> (p, id) in ms) && ((p, id) in ms ==> ns[(p, id)] == ms[(p, id)])
  }

  /** The missions of q read as row says, the others as before. */
  ghost predicate MissionsRead(c: Catalog, u: User, q: int, row: (int, Mission) -> Mission, v: User) {
    forall p, id :: MissionReads(u.missions, q, GetOr(c.missionIds, q, []), row, p, id, v.missions)
  }

  function Won(q: int, named: bool, now: int): (int, Mission) -> Mission {
    (id, m: Mission) => if named then Mission(q, id, 1, true, now) else Mission(m.questId, m.missionId, 1, true, now)
  }

  function Blank(q: int): (int, Mission) -> Mission {
    (id, m: Mission) => Mission(q, id, 0, false, 0)
  }

  /** Every finish, won or not, marks all the quest's missions as cleared now; a main quest's rows get their names. */
  lemma FinishWritesMissions(c: Catalog, u: User, a: Action)
    requires Finishes(a) && Enabled(c, u, a)
    ensures MissionsRead(c, u, a.q, Won(a.q, a.Finish?, a.now), Step(c, u, a))
  {
    hide Finished, SideFinished, MissionsRead, MapMissions;
    if a.Finish? {
      MainFinishMissions(c, u, a);
      NamedWon(c, u, a.q, a.now, Step(c, u, a));
    } else {
      SideFinishMissions(c, u, a);
      MarkedWon(c, u, a.q, a.now, Step(c, u, a));
    }
  }

  lemma MarkedWon(c: Catalog, u: User, q: int, now: int, v: User)
    requires v.missions == MapMissions(u.missions, q, c.MissionIds(q), ClearedAt(now))
    ensures MissionsRead(c, u, q, Won(q, false, now), v)
  {
    forall p, id ensures MissionReads(u.missions, q, c.MissionIds(q), Won(q, false, now), p, id, v.missions) {
      MissionAt(u.missions, q, c.MissionIds(q), ClearedAt(now), p, id);
    }
  }

  lemma NamedWon(c: Catalog, u: User, q: int, now: int, v: User)
    requires v.missions == MapMissions(MapMissions(u.missions, q, c.MissionIds(q), Named(q)), q, c.MissionIds(q), ClearedAt(now))
    ensures MissionsRead(c, u, q, Won(q, true, now), v)
  {
    var ms := MapMissions(u.missions, q, c.MissionIds(q), Named(q));
    forall p, id ensures MissionReads(u.missions, q, c.MissionIds(q), Won(q, true, now), p, id, v.missions) {
      MissionAt(u.missions, q, c.MissionIds(q), Named(q), p, id);
      MissionAt(ms, q, c.MissionIds(q), ClearedAt(now), p, id);
    }
  }

  lemma ResolvedMissions(c: Catalog, u: User, q: int, retired: bool, now: int)
    requires CanEvaluate(c, u, q)
    ensures Resolved(c, u, q, retired, now).missions == u.missions
  {
    hide Evaluate, GroupKnown, ApplyRewards;
    if !retired && !u.quests[q].rewardGranted {
      RewardsKeep(c, u, q, now);
    }
  }

  lemma SideFinishMissions(c: Catalog, u: User, a: Action)
    requires a.SideFinish?() && Enabled(c, u, a)
    ensures Step(c, u, a).missions == MapMissions(u.missions, a.q, c.MissionIds(a.q), ClearedAt(a.now))
  {
    hide Resolved, Refunded, CanEvaluate, MapMissions;
    EvaluateKnown(c, u, a.q);
    ResolvedMissions(c, u, a.q, a.retired, a.now);
    RefundKeeps(c, Resolved(c, u, a.q, a.retired, a.now), a.q, a.retired, a.annihilated, a.now);
  }

  lemma MainFinishMissions(c: Catalog, u: User, a: Action)
    requires a.Finish? && CanFinish(c, u, a.q, a.retired)
    ensures Finished(c, u, a.q, a.retired, a.annihilated, a.now, a.clock).missions ==
            MapMissions(MapMissions(u.missions, a.q, c.MissionIds(a.q), Named(a.q)), a.q, c.MissionIds(a.q), ClearedAt(a.now))
  {
    hide Resolved, Refunded, Reclosed, FlowEnded, Advance, CanEvaluate, MapMissions, QuestOf;
    var q := a.q;
    var v := InitQuest(c, u, q);
    EvaluateKnown(c, v, q);
    LastSceneKnown(c, q);
    var wasReplay, wasMenuReplay := u.main.flow == ReplayFlow, u.main.saved.active;
    var moves := !a.retired && c.Playable(q) && !wasReplay && !wasMenuReplay;
    WonMissions(c, v, q, a, moves);
    var won := Resolved(c, v, q, a.retired, a.now);
    var moved := if moves then Advance(c, won, q, c.Scenes(q)[|c.Scenes(q)| - 1], a.clock) else won;
    EndingMissions(c, moved, q, a, wasReplay, wasMenuReplay);
  }

  lemma WonMissions(c: Catalog, u: User, q: int, a: Action, moves: bool)
    requires a.Finish? && CanEvaluate(c, u, q)
    requires moves ==> c.Scenes(q) != []
    requires moves ==> CanAdvance(c, Resolved(c, u, q, a.retired, a.now), q, c.Scenes(q)[|c.Scenes(q)| - 1])
    ensures var won := Resolved(c, u, q, a.retired, a.now);
            var v := if moves then Advance(c, won, q, c.Scenes(q)[|c.Scenes(q)| - 1], a.clock) else won;
            v.missions == u.missions
  {
    hide Resolved, Advance, CanEvaluate, CanAdvance;
    ResolvedMissions(c, u, q, a.retired, a.now);
    if moves {
      AdvanceMoves(c, Resolved(c, u, q, a.retired, a.now), q, c.Scenes(q)[|c.Scenes(q)| - 1], a.clock);
    }
  }

  lemma EndingMissions(c: Catalog, u: User, q: int, a: Action, wasReplay: bool, wasMenuReplay: bool)
    requires a.Finish? && q in c.quests
    ensures var v := FlowEnded(Reclosed(Refunded(c, u, q, a.retired, a.annihilated, a.now), q, a.retired), wasReplay, wasMenuReplay, a.now);
            v.missions == u.missions
  {
    hide Refunded, Reclosed, FlowEnded;
    RefundKeeps(c, u, q, a.retired, a.annihilated, a.now);
    var w := Refunded(c, u, q, a.retired, a.annihilated, a.now);
    ReclosedKeeps(w, q, a.retired);
    FlowEndedStory(Reclosed(w, q, a.retired), wasReplay, wasMenuReplay, a.now);
  }

  /** A restart blanks them. */
  lemma RestartWritesMissions(c: Catalog, u: User, a: Action)
    requires a.Restart? || a.EventRestart? || a.ExtraRestart?
    ensures MissionsRead(c, u, a.q, Blank(a.q), Step(c, u, a))
  {
    hide MissionsRead, MapMissions;
    RestartedBlank(c, u, a.q, Step(c, u, a));
  }

  lemma RestartedBlank(c: Catalog, u: User, q: int, v: User)
    requires v.missions == MapMissions(u.missions, q, c.MissionIds(q), Restarted(q))
    ensures MissionsRead(c, u, q, Blank(q), v)
  {
    forall p, id ensures MissionReads(u.missions, q, c.MissionIds(q), Blank(q), p, id, v.missions) {
      MissionAt(u.missions, q, c.MissionIds(q), Restarted(q), p, id);
    }
  }
}
