/** What every run of the quest handlers keeps: the story position across replays, the committed head
    scene, and the first-clear packages and other grants paid out. */
module QuestRuns {
  import opened Wrappers
  import opened Store
  import opened Stamina
  import opened Masterdata
  import opened QuestFlow

  /** One handler call. Clock reads and everything the client sends are arbitrary. */
  datatype Action =
    | Start(q: int, battleOnly: bool, mainFlow: bool, deck: int, replay: bool, now: int, clock: int)
    | Finish(q: int, retired: bool, annihilated: bool, now: int, clock: int)
    | Skip(q: int, count: int, now: int)
    | Restart(q: int, now: int)
    | MainFlowScene(scene: int, now: int, clock: int)
    | ReplayScene(scene: int, now: int)
    | MainQuestScene(scene: int, clock: int, clock2: int)
    | EventStart(chapter: int, q: int, battleOnly: bool, deck: int, now: int)
    | EventFinish(q: int, retired: bool, annihilated: bool, now: int)
    | EventRestart(chapter: int, q: int, now: int)
    | EventScene(scene: int, now: int)
    | ExtraStart(q: int, deck: int, now: int)
    | ExtraFinish(q: int, retired: bool, annihilated: bool, now: int)
    | ExtraRestart(q: int, now: int)
    | ExtraScene(scene: int, now: int)
    | HuntStart(q: int, deck: int, now: int)
    | HuntFinish(q: int, retired: bool, annihilated: bool, now: int)
  {
    predicate SideFinish?() { EventFinish? || ExtraFinish? || HuntFinish? }
    predicate SideStart?() { EventStart? || ExtraStart? || HuntStart? }
  }

  /** The handler does not panic. */
  predicate Enabled(c: Catalog, u: User, a: Action) {
    match a
    case Start(q, _, _, _, _, _, _) => CanStart(c, u, q)
    case Finish(q, retired, _, _, _) => CanFinish(c, u, q, retired)
    case Skip(q, _, _) => q in c.quests
    case MainFlowScene(scene, _, _) => CanProgressMainFlow(c, u, scene)
    case MainQuestScene(scene, _, _) => CanProgressMainQuest(c, u, scene)
    case _ =>
      && (a.SideStart?() ==> a.q in c.quests)
      && (a.SideFinish?() ==> CanEvaluate(c, u, a.q))
  }

  function Step(c: Catalog, u: User, a: Action): User
    requires Enabled(c, u, a)
  {
    match a
    case Start(q, battleOnly, mainFlow, deck, replay, now, clock) => Started(c, u, q, battleOnly, mainFlow, deck, replay, now, clock)
    case Finish(q, retired, annihilated, now, clock) => Finished(c, u, q, retired, annihilated, now, clock)
    case Skip(q, count, now) => Skipped(c, u, q, count, now)
    case Restart(q, now) => RestartedQuest(c, u, q, now)
    case MainFlowScene(scene, now, clock) => MainFlowProgressed(c, u, scene, now, clock)
    case ReplayScene(scene, now) => ReplayProgressed(c, u, scene, now)
    case MainQuestScene(scene, clock, clock2) => MainQuestProgressed(c, u, scene, clock, clock2)
    case _ => SideStep(c, u, a)
  }

  function SideStep(c: Catalog, u: User, a: Action): User
    requires Enabled(c, u, a)
  {
    match a
    case EventStart(chapter, q, battleOnly, deck, now) => EventStarted(c, u, chapter, q, battleOnly, deck, now)
    case EventFinish(q, retired, annihilated, now) => EventFinished(c, u, q, retired, annihilated, now)
    case EventRestart(chapter, q, now) => EventRestarted(c, u, chapter, q, now)
    case EventScene(scene, now) => EventProgressed(c, u, scene, now)
    case ExtraStart(q, deck, now) => ExtraStarted(c, u, q, deck, now)
    case ExtraFinish(q, retired, annihilated, now) => ExtraFinished(c, u, q, retired, annihilated, now)
    case ExtraRestart(q, now) => ExtraRestarted(c, u, q, now)
    case ExtraScene(scene, now) => ExtraProgressed(c, u, scene, now)
    case HuntStart(q, deck, now) => HuntStarted(c, u, q, deck, now)
    case HuntFinish(q, retired, annihilated, now) => HuntFinished(c, u, q, retired, annihilated, now)
    case _ => u
  }

  /** us[i + 1] is us[i] after as[i]. */
  ghost predicate Run(c: Catalog, us: seq<User>, acts: seq<Action>) {
    && |us| == |acts| + 1
    && forall i :: 0 <= i < |acts| ==> StepTo(c, us[i], acts[i], us[i + 1])
  }

  ghost predicate StepTo(c: Catalog, u: User, a: Action, v: User) {
    Enabled(c, u, a) && v == Step(c, u, a)
  }

  // ---- What the parts of a handler leave alone ----

  predicate Paid(u: User, q: int) {
    QuestOf(u, q).rewardGranted
  }

  lemma RefundKeeps(c: Catalog, u: User, q: int, retired: bool, annihilated: bool, now: int)
    requires q in c.quests
    ensures var v := Refunded(c, u, q, retired, annihilated, now); v == u.(status := v.status)
  {
    hide Recovered;
  }

  /** A victory pays the first-clear package once, then drops and replay rewards. */
  lemma VictoryPays(c: Catalog, u: User, q: int, o: Outcome, now: int)
    requires CanEvaluate(c, u, q)
    requires o.firstClear == if Paid(u, q) then [] else FirstClear(c, u, q)
    ensures var v := Victory(c, u, q, o, now);
            && v.main == u.main && v.cage == u.cage
            && v.quests == u.quests[q := QuestOf(v, q)]
            && QuestOf(v, q).state == Cleared && Paid(v, q)
            && v.packages == u.packages + (if Paid(u, q) then [] else [q])
            && v.granted == u.granted + o.firstClear + o.drops + o.replay
  {
    hide GroupKnown, FirstClear, ApplyRewards;
    if !Paid(u, q) {
      RewardsKeep(c, u, q, now);
    }
  }

  lemma EvaluateReports(c: Catalog, u: User, q: int)
    requires CanEvaluate(c, u, q)
    ensures Evaluate(c, u, q).firstClear == if Paid(u, q) then [] else FirstClear(c, u, q)
  {
    hide GroupKnown, FirstClear, Drops, ReplayRewards, RegularRewards, CompleteRewards, BigWins;
  }

  lemma {:induction false} SkipRunsKeep(c: Catalog, u: User, q: int, n: nat, now: int)
    requires q in c.quests
    ensures var v := SkipRuns(c, u, q, n, now);
            v.main == u.main && v.cage == u.cage && v.quests == u.quests && v.packages == u.packages
  {
    hide ApplyExp, Drops;
    if n > 0 {
      SkipRunsKeep(c, u, q, n - 1, now);
      var w := SkipRuns(c, u, q, n - 1, now);
      var d := Granted(w, Drops(c, c.quests[q]));
      ExpKeeps(c, if c.quests[q].gold != 0 then AddItem(d, c.goldItem, c.quests[q].gold) else d, q, now);
    }
  }

  lemma RecordRouteKeeps(u: User, season: int, route: int, now: int)
    ensures var v := RecordRoute(u, season, route, now); v == u.(seasonRoutes := v.seasonRoutes)
  {
    if season <= 0 || route <= 0 || (season, route) in u.seasonRoutes {
    }
  }

  lemma AdvanceMoves(c: Catalog, u: User, q: int, scene: int, clock: int)
    requires CanAdvance(c, u, q, scene)
    ensures var v := Advance(c, u, q, scene, clock);
            && v == u.(main := v.main, seasonRoutes := v.seasonRoutes)
            && v.main.saved == u.main.saved && v.main.flow == u.main.flow
            && v.main.head == (if Ahead(c, scene, u.main.head) then scene else u.main.head)
  {
    hide Ahead, LastScene, HasLastScene, RecordRoute;
    if Ahead(c, scene, u.main.head) {
      var v := u.(main := MovedTo(c, u.main, q, scene));
      RecordRouteKeeps(v, v.main.season, v.main.route, clock);
    }
  }

  // ---- Payments ----

  /** What a finish of q hands to the granter: nothing when retired, otherwise what it reports, missions apart. */
  function Payout(c: Catalog, u: User, q: int, retired: bool): seq<Grant>
    requires CanEvaluate(c, u, q)
  {
    if retired then [] else var o := Evaluate(c, u, q); o.firstClear + o.drops + o.replay
  }

  /** v is u after the package and the rest of the payout of a finish of q. */
  ghost predicate PaysFor(c: Catalog, u: User, q: int, retired: bool, v: User)
    requires CanEvaluate(c, u, q)
  {
    && v.granted == u.granted + Payout(c, u, q, retired)
    && PaysPackage(u, v, if retired || Paid(u, q) then None else Some(q))
  }

  /** v is u with one more package paid, that of p and for the first time, or with none. */
  ghost predicate PaysPackage(u: User, v: User, p: Option<int>) {
    && v.packages == u.packages + (if p.Some? then [p.value] else [])
    && (p.Some? ==> !Paid(u, p.value))
    && forall x :: Paid(v, x) == (Paid(u, x) || p == Some(x))
  }

  ghost predicate SamePay(u: User, v: User) {
    v.granted == u.granted && v.packages == u.packages && forall p :: Paid(v, p) == Paid(u, p)
  }

  // ---- Story position ----

  /** Scene b is no earlier in the story than scene a; scene 0 is before every scene. */
  predicate NotBehind(c: Catalog, a: int, b: int) {
    a == 0 || (b != 0 && c.SortOrder(a) <= c.SortOrder(b))
  }

  /** Scene 0 stands for no scene. */
  ghost predicate ScenesNumbered(c: Catalog) {
    0 !in c.scenes && forall q :: 0 !in c.Scenes(q)
  }

  /** How one handler call may touch the story position and its snapshot. */
  predicate StoryStep(c: Catalog, u: User, a: Action, v: User) {
    && (u.main.saved.active ==>
          if a.Finish? then !v.main.saved.active && Snapshot(v) == u.main.saved else v.main.saved == u.main.saved)
    && (!u.main.saved.active ==>
          if v.main.saved.active then a.Start? && v.main.saved == Snapshot(u) else NotBehind(c, u.main.head, v.main.head))
  }

  /** A replay is under way only while a snapshot is held. */
  predicate ReplayHolds(u: User) {
    u.main.flow == ReplayFlow ==> u.main.saved.active
  }

  lemma EnteredStory(c: Catalog, u: User, q: int, battleOnly: bool, mainFlow: bool, replay: bool, now: int)
    requires q in c.quests
    ensures var v := Entered(c, u, q, battleOnly, mainFlow, replay, now);
            && (v.main.saved == u.main.saved || v.main.saved == SavedAfter(u))
            && (v.main.flow == ReplayFlow ==> u.main.flow == ReplayFlow || v.main.saved.active)
            && v.granted == u.granted && v.packages == u.packages
  {
    hide MapMissions, PayStamina, EntranceOf, MenuPickScene;
    PayKeeps(c, InitQuest(c, u, q), q, now);
  }

  lemma ToMainFlowKeeps(u: User)
    ensures var v := ToMainFlow(u); v == u.(main := v.main) && v.main == u.main.(flow := MainFlow)
  {
  }

  lemma InStoryStep(c: Catalog, u: User, q: int, clock: int)
    requires q in c.quests && StoryReady(c, u, q) && ScenesNumbered(c)
    ensures var v := InStory(c, u, q, clock);
            && v.main.saved == u.main.saved && NotBehind(c, u.main.head, v.main.head)
            && (v.main.flow == ReplayFlow ==> u.main.flow == ReplayFlow)
            && v.quests == u.quests && v.granted == u.granted && v.packages == u.packages
  {
    hide Ahead, HasLastScene, Advance, NotBehind, ToMainFlow;
    AheadIsNotBehind(c, u.main.head, u.main.head);
    ToMainFlowKeeps(u);
    if !c.Playable(q) && c.Scenes(q) != [] {
      ToMainFlowKeeps(Advance(c, u, q, c.Scenes(q)[0], clock));
      AdvanceMoves(c, u, q, c.Scenes(q)[0], clock);
      AheadIsNotBehind(c, c.Scenes(q)[0], u.main.head);
    }
  }

  lemma StartStory(c: Catalog, u: User, a: Action)
    requires a.Start? && Enabled(c, u, a) && ScenesNumbered(c)
    ensures StoryStep(c, u, a, Step(c, u, a))
    ensures ReplayHolds(u) ==> ReplayHolds(Step(c, u, a))
  {
    hide Entered, InStory, QuestEntered, ScenesNumbered;
    var q := a.q;
    EnteredKeeps(c, u, q, a.battleOnly, a.mainFlow, a.replay, a.now);
    EnteredStory(c, u, q, a.battleOnly, a.mainFlow, a.replay, a.now);
    if !QuestOf(u, q).state.Cleared? {
      var v := Entered(c, u, q, a.battleOnly, a.mainFlow, a.replay, a.now);
      assert StoryReady(c, v, q);
      InStoryStep(c, v, q, a.clock);
    }
  }

  lemma ReclosedKeeps(u: User, q: int, retired: bool)
    ensures var v := Reclosed(u, q, retired);
            v == u.(quests := v.quests) && forall p :: Paid(v, p) == Paid(u, p)
  {
    if retired && QuestOf(u, q).clears > 0 && QuestOf(u, q).state.Active? {
    }
  }

  lemma FlowEndedStory(u: User, wasReplay: bool, wasMenuReplay: bool, now: int)
    ensures var v := FlowEnded(u, wasReplay, wasMenuReplay, now);
            && v == u.(main := v.main, cage := v.cage) && v.main.flow == MainFlow
            && (if wasMenuReplay then !v.main.saved.active && Snapshot(v) == u.main.saved.(active := true)
                else v.main.saved == u.main.saved && v.main.head == u.main.head)
  {
  }

  /** The last scene of a played quest moves the story on, outside replays. */
  lemma WonStory(c: Catalog, u: User, q: int, retired: bool, now: int, clock: int, moves: bool)
    requires CanEvaluate(c, u, q) && ScenesNumbered(c)
    requires moves ==> c.Scenes(q) != []
    requires moves ==> CanAdvance(c, Resolved(c, u, q, retired, now), q, c.Scenes(q)[|c.Scenes(q)| - 1])
    ensures var won := Resolved(c, u, q, retired, now);
            var v := if moves then Advance(c, won, q, c.Scenes(q)[|c.Scenes(q)| - 1], clock) else won;
            && v.main.saved == u.main.saved && NotBehind(c, u.main.head, v.main.head)
            && (!moves ==> v.main == u.main)
            && PaysFor(c, u, q, retired, v)
  {
    hide Ahead, HasLastScene, Advance, NotBehind, Victory, Evaluate, CanEvaluate, FirstClear;
    ResolvedPays(c, u, q, retired, now);
    AheadIsNotBehind(c, u.main.head, u.main.head);
    if moves {
      var won := Resolved(c, u, q, retired, now);
      AdvanceMoves(c, won, q, c.Scenes(q)[|c.Scenes(q)| - 1], clock);
      AheadIsNotBehind(c, c.Scenes(q)[|c.Scenes(q)| - 1], u.main.head);
    }
  }

  lemma ResolvedPays(c: Catalog, u: User, q: int, retired: bool, now: int)
    requires CanEvaluate(c, u, q)
    ensures var v := Resolved(c, u, q, retired, now);
            v.main == u.main && v.cage == u.cage && PaysFor(c, u, q, retired, v)
  {
    hide Victory, Evaluate, FirstClear, GroupKnown;
    EvaluateReports(c, u, q);
    if !retired {
      VictoryPays(c, u, q, Evaluate(c, u, q), now);
    }
  }

  lemma AheadIsNotBehind(c: Catalog, scene: int, head: int)
    ensures NotBehind(c, head, head)
    ensures scene != 0 && Ahead(c, scene, head) ==> NotBehind(c, head, scene)
  {
  }

  /** The finish of a main quest after its victory: refund, reclosing and the end of the flow. */
  lemma FinishEnds(c: Catalog, u: User, q: int, retired: bool, annihilated: bool, wasReplay: bool, wasMenuReplay: bool, now: int)
    requires q in c.quests
    ensures var v := FlowEnded(Reclosed(Refunded(c, u, q, retired, annihilated, now), q, retired), wasReplay, wasMenuReplay, now);
            && SamePay(u, v) && v.main.flow == MainFlow
            && (if wasMenuReplay then !v.main.saved.active && Snapshot(v) == u.main.saved.(active := true)
                else v.main.saved == u.main.saved && v.main.head == u.main.head)
  {
    hide Refunded, Reclosed, FlowEnded;
    RefundKeeps(c, u, q, retired, annihilated, now);
    var w := Refunded(c, u, q, retired, annihilated, now);
    ReclosedKeeps(w, q, retired);
    FlowEndedStory(Reclosed(w, q, retired), wasReplay, wasMenuReplay, now);
    var x := Reclosed(w, q, retired);
    var v := FlowEnded(x, wasReplay, wasMenuReplay, now);
    forall p ensures Paid(v, p) == Paid(u, p) {
      assert Paid(v, p) == Paid(x, p) == Paid(w, p) == Paid(u, p);
    }
  }

  lemma ClearMissionsKeeps(c: Catalog, u: User, q: int, now: int)
    ensures var v := ClearMissions(c, u, q, now); v == u.(missions := v.missions) && SamePay(u, v)
  {
    hide MapMissions;
  }

  lemma FinishStory(c: Catalog, u: User, a: Action)
    requires a.Finish? && Enabled(c, u, a) && ScenesNumbered(c)
    ensures var v := Step(c, u, a);
            && StoryStep(c, u, a, v) && v.main.flow == MainFlow
            && PaysFor(c, InitQuest(c, u, a.q), a.q, a.retired, v)
  {
    hide MapMissions, Resolved, Refunded, Reclosed, FlowEnded, Advance, NotBehind, CanEvaluate, Payout, ScenesNumbered,
         ClearMissions, PaysFor, PaysPackage, SamePay;
    var q := a.q;
    var v := InitQuest(c, u, q);
    assert v.main == u.main && v.cage == u.cage;
    EvaluateKnown(c, v, q);
    var wasReplay, wasMenuReplay := u.main.flow == ReplayFlow, u.main.saved.active;
    var moves := !a.retired && c.Playable(q) && !wasReplay && !wasMenuReplay;
    WonStory(c, v, q, a.retired, a.now, a.clock, moves);
    var won := Resolved(c, v, q, a.retired, a.now);
    var moved := if moves then Advance(c, won, q, c.Scenes(q)[|c.Scenes(q)| - 1], a.clock) else won;
    FinishEnds(c, moved, q, a.retired, a.annihilated, wasReplay, wasMenuReplay, a.now);
    var ended := FlowEnded(Reclosed(Refunded(c, moved, q, a.retired, a.annihilated, a.now), q, a.retired), wasReplay, wasMenuReplay, a.now);
    PaysOn(c, v, q, a.retired, moved, ended);
    ClearMissionsKeeps(c, ended, q, a.now);
    PaysOn(c, v, q, a.retired, ended, Step(c, u, a));
  }

  lemma PaysOn(c: Catalog, u: User, q: int, retired: bool, v: User, w: User)
    requires CanEvaluate(c, u, q) && PaysFor(c, u, q, retired, v)
    requires SamePay(v, w)
    ensures PaysFor(c, u, q, retired, w)
  {
    hide CanEvaluate, Payout;
  }

  lemma QuestEnteredKeeps(c: Catalog, quest: Quest, q: int, battleOnly: bool, deck: int, now: int)
    requires q in c.quests
    ensures QuestEntered(c, quest, q, battleOnly, deck, now).rewardGranted == quest.rewardGranted
  {
  }

  lemma StartPays(c: Catalog, u: User, a: Action)
    requires a.Start? && Enabled(c, u, a) && ScenesNumbered(c)
    ensures SamePay(u, Step(c, u, a))
  {
    hide Entered, InStory, NotBehind, ScenesNumbered, QuestEntered;
    var q := a.q;
    EnteredKeeps(c, u, q, a.battleOnly, a.mainFlow, a.replay, a.now);
    EnteredStory(c, u, q, a.battleOnly, a.mainFlow, a.replay, a.now);
    QuestEnteredKeeps(c, QuestOf(u, q).(id := q), q, a.battleOnly, a.deck, a.now);
    if !QuestOf(u, q).state.Cleared? {
      var v := Entered(c, u, q, a.battleOnly, a.mainFlow, a.replay, a.now);
      assert StoryReady(c, v, q);
      InStoryStep(c, v, q, a.clock);
    }
  }

  lemma SkipPaidKeeps(c: Catalog, u: User, count: int, now: int)
    ensures var v := SkipPaid(c, u, count, now); v == u.(status := v.status, items := v.items)
  {
    hide Consumed;
  }

  lemma SkipStory(c: Catalog, u: User, a: Action)
    requires a.Skip? && Enabled(c, u, a)
    ensures var v := Step(c, u, a);
            v.main == u.main && v.cage == u.cage && PaysPackage(u, v, None)
  {
    hide SkipPaid, SkipRuns;
    SkipPaidKeeps(c, u, a.count, a.now);
    SkipRunsKeep(c, SkipPaid(c, u, a.count, a.now), a.q, if a.count < 0 then 0 else a.count, a.now);
  }

  lemma RestartKeeps(c: Catalog, u: User, q: int, now: int)
    ensures var v := RestartedQuest(c, u, q, now);
            && v.main.saved == u.main.saved && v.main.head == u.main.head && v.cage == u.cage
            && (v.main.flow == ReplayFlow ==> u.main.flow == ReplayFlow)
            && SamePay(u, v)
  {
    hide MapMissions, ToMainFlow;
    ToMainFlowKeeps(u);
  }

  /** A scene of the story moves the head forward and holds no reward package. */
  lemma MainFlowSceneStory(c: Catalog, u: User, a: Action)
    requires a.MainFlowScene? && Enabled(c, u, a) && ScenesNumbered(c)
    ensures var v := Step(c, u, a);
            && v.main.saved == u.main.saved && NotBehind(c, u.main.head, v.main.head) && v.main.flow == MainFlow
            && PaysPackage(u, v, None)
  {
    hide Ahead, NotBehind, Advance, HasLastScene;
    AdvanceMoves(c, u, c.scenes[a.scene].questId, a.scene, a.clock);
    AheadIsNotBehind(c, a.scene, u.main.head);
  }

  lemma FinalizedKeeps(c: Catalog, u: User, q: int, now: int)
    requires CanFinalize(c, u, q)
    ensures var v := Finalized(c, u, q, now);
            && v.main == u.main && v.cage == u.cage
            && PaysPackage(u, v, if q in c.quests && !QuestOf(u, q).state.Cleared? && !Paid(u, q) then Some(q) else None)
  {
    hide MapMissions, ApplyRewards, GroupKnown;
    if q in c.quests && !QuestOf(u, q).state.Cleared? && !Paid(u, q) {
      RewardsKeep(c, InitQuest(c, u, q), q, now);
    }
  }

  lemma MainQuestSceneStory(c: Catalog, u: User, a: Action)
    requires a.MainQuestScene? && Enabled(c, u, a) && ScenesNumbered(c)
    ensures var v := Step(c, u, a);
            && v.main.saved == u.main.saved && NotBehind(c, u.main.head, v.main.head)
            && (v.main.flow == ReplayFlow ==> u.main.flow == ReplayFlow)
            && PaysPackage(u, v, ChainPayee(c, u, c.scenes[a.scene].questId))
  {
    hide Ahead, NotBehind, Finalized, PlayedScene, BackgroundScene, LastScene, HasLastScene, CanFinalize;
    var q := c.scenes[a.scene].questId;
    AheadIsNotBehind(c, u.main.head, u.main.head);
    LeftBehindPays(c, u, q, a.clock);
    var v := LeftBehind(c, u, q, a.clock);
    if c.Playable(q) {
      PlayedSceneKeeps(c, v, a.scene, a.clock2);
    } else {
      BackgroundSceneKeeps(c, v, q, a.scene);
    }
  }

  /** The quest a chain leaves behind is paid unless it is cleared, paid before or unknown. */
  function ChainPayee(c: Catalog, u: User, q: int): Option<int> {
    var prev := ChainPrevious(c, u, q);
    if prev.Some? && prev.value in c.quests && !QuestOf(u, prev.value).state.Cleared? && !Paid(u, prev.value) then prev else None
  }

  lemma LeftBehindPays(c: Catalog, u: User, q: int, clock: int)
    requires ChainPrevious(c, u, q).Some? ==> CanFinalize(c, u, ChainPrevious(c, u, q).value)
    ensures var v := LeftBehind(c, u, q, clock);
            v.main == u.main && v.cage == u.cage && PaysPackage(u, v, ChainPayee(c, u, q))
  {
    hide CanFinalize, Finalized;
    if ChainPrevious(c, u, q).Some? {
      FinalizedKeeps(c, u, ChainPrevious(c, u, q).value, clock);
    }
  }

  lemma PlayedSceneKeeps(c: Catalog, u: User, scene: int, clock: int)
    requires scene in c.scenes
    ensures var v := PlayedScene(c, u, scene, clock);
            && SamePay(u, v) && v.main.saved == u.main.saved && v.main.head == u.main.head && v.main.flow == SubFlow
  {
    hide MapMissions, Ahead;
  }

  lemma BackgroundSceneKeeps(c: Catalog, u: User, q: int, scene: int)
    requires HasLastScene(c, q) && scene in c.scenes && ScenesNumbered(c)
    ensures var v := BackgroundScene(c, u, q, scene);
            && SamePay(u, v) && v.main.saved == u.main.saved && v.main.flow == u.main.flow
            && NotBehind(c, u.main.head, v.main.head)
  {
    hide LastScene, HasLastScene, Ahead, NotBehind;
    AheadIsNotBehind(c, scene, u.main.head);
  }

  // ---- The quests off the main flow ----

  /** The story pointers stay; a replay does not begin. */
  predicate StoryStays(u: User, v: User) {
    && v.main.saved == u.main.saved && v.main.head == u.main.head
    && (v.main.flow == ReplayFlow ==> u.main.flow == ReplayFlow)
  }

  lemma SideStartKeeps(c: Catalog, u: User, q: int, battleOnly: Option<bool>, deck: int, now: int)
    requires q in c.quests
    ensures var v := SideStarted(c, u, q, battleOnly, deck, now);
            v.main == u.main && SamePay(u, v)
  {
    hide MapMissions, PayStamina;
    PayKeeps(c, InitQuest(c, u, q), q, now);
  }

  lemma SideFinishPays(c: Catalog, u: User, q: int, retired: bool, annihilated: bool, now: int)
    requires CanEvaluate(c, u, q)
    ensures var v := SideFinished(c, u, q, retired, annihilated, now);
            && v.main == u.main && PaysFor(c, u, q, retired, v)
            && (retired ==> v.quests == u.quests)
  {
    hide CanEvaluate, Resolved, Refunded, Payout;
    EvaluateKnown(c, u, q);
    ResolvedPays(c, u, q, retired, now);
    assert retired ==> Resolved(c, u, q, retired, now) == u by {
      RetiredResolves(c, u, q, now);
    }
    RefundKeeps(c, Resolved(c, u, q, retired, now), q, retired, annihilated, now);
  }

  lemma RetiredResolves(c: Catalog, u: User, q: int, now: int)
    requires CanEvaluate(c, u, q)
    ensures Resolved(c, u, q, true, now) == u
  {
    hide Victory, Evaluate;
  }

  lemma SceneEffectsKeep(c: Catalog, u: User, scene: int, now: int)
    requires scene in c.scenes
    ensures var v := SceneEffects(c, u, scene, now);
            v.main == u.main && v.packages == u.packages && v.quests == u.quests
  {
    hide ClearMissions;
    ClearMissionsKeeps(c, Granted(u, GetOr(c.sceneGrants, scene, [])), c.scenes[scene].questId, now);
  }

  lemma AtSceneKeeps(c: Catalog, u: User, scene: int)
    ensures var v := AtEventScene(c, u, scene); v == u.(event := v.event)
    ensures var v := AtExtraScene(c, u, scene); v == u.(extra := v.extra)
  {
    hide Ahead;
  }

  lemma SideSceneKeeps(c: Catalog, u: User, a: Action)
    requires a.EventScene? || a.ExtraScene?
    ensures StoryStays(u, Step(c, u, a)) && PaysPackage(u, Step(c, u, a), None)
  {
    hide SceneEffects, AtEventScene, AtExtraScene;
    AtSceneKeeps(c, u, a.scene);
    if a.scene in c.scenes {
      SceneEffectsKeep(c, if a.EventScene? then AtEventScene(c, u, a.scene) else AtExtraScene(c, u, a.scene), a.scene, a.now);
    }
  }

  lemma SideStartStepKeeps(c: Catalog, u: User, a: Action)
    requires a.SideStart?() && Enabled(c, u, a)
    ensures StoryStays(u, Step(c, u, a)) && PaysPackage(u, Step(c, u, a), None)
  {
    hide SideStarted;
    SideStartKeeps(c, u, a.q, if a.EventStart? then Some(a.battleOnly) else None, a.deck, a.now);
  }

  lemma RestartStepKeeps(c: Catalog, u: User, a: Action)
    requires a.EventRestart? || a.ExtraRestart? || a.Restart?
    ensures StoryStays(u, Step(c, u, a)) && PaysPackage(u, Step(c, u, a), None)
  {
    hide RestartedQuest;
    RestartKeeps(c, u, a.q, a.now);
  }

  lemma ReplaySceneKeeps(c: Catalog, u: User, a: Action)
    requires a.ReplayScene?
    ensures StoryStays(u, Step(c, u, a)) && PaysPackage(u, Step(c, u, a), None)
  {
    hide Ahead;
  }

  lemma SideFinishKeeps(c: Catalog, u: User, a: Action)
    requires a.SideFinish?() && Enabled(c, u, a)
    ensures StoryStays(u, Step(c, u, a)) && PaysFor(c, u, a.q, a.retired, Step(c, u, a))
    ensures a.retired ==> Step(c, u, a).quests == u.quests
  {
    hide SideFinished, ClearMissions, CanEvaluate, Payout, Paid;
    SideFinishPays(c, u, a.q, a.retired, a.annihilated, a.now);
    var v := SideFinished(c, u, a.q, a.retired, a.annihilated, a.now);
    var w := if a.EventFinish? then v.(event := EventQuest(0, 0, 0, 0, a.now))
             else if a.ExtraFinish? then v.(extra := ExtraQuest(0, 0, 0)) else v;
    assert SamePay(v, w) by {
      SameQuestsSamePay(v, w);
    }
    ClearMissionsKeeps(c, w, a.q, a.now);
    hide PaysFor, SamePay;
    PaysOn(c, u, a.q, a.retired, v, w);
    PaysOn(c, u, a.q, a.retired, w, ClearMissions(c, w, a.q, a.now));
  }

  lemma SameQuestsSamePay(u: User, v: User)
    requires v.quests == u.quests && v.granted == u.granted && v.packages == u.packages
    ensures SamePay(u, v)
  {
  }

  // ---- Every handler ----

  /** The quest whose first-clear package a step pays. */
  function Payee(c: Catalog, u: User, a: Action): Option<int>
    requires Enabled(c, u, a)
  {
    if a.Finish? || a.SideFinish?() then if a.retired || Paid(u, a.q) then None else Some(a.q)
    else if a.MainQuestScene? then ChainPayee(c, u, c.scenes[a.scene].questId)
    else None
  }

  lemma StepStory(c: Catalog, u: User, a: Action)
    requires Enabled(c, u, a) && ScenesNumbered(c)
    ensures StoryStep(c, u, a, Step(c, u, a))
    ensures ReplayHolds(u) ==> ReplayHolds(Step(c, u, a))
  {
    hide Step, Enabled, NotBehind, PaysPackage, PaysFor, SamePay, ChainPayee;
    AheadIsNotBehind(c, u.main.head, u.main.head);
    if a.Start? { StartStory(c, u, a); }
    else if a.Finish? { FinishStory(c, u, a); }
    else if a.Skip? { SkipStory(c, u, a); }
    else if a.MainFlowScene? { MainFlowSceneStory(c, u, a); }
    else if a.MainQuestScene? { MainQuestSceneStory(c, u, a); }
    else { OtherStepKeeps(c, u, a); }
  }

  lemma OtherStepKeeps(c: Catalog, u: User, a: Action)
    requires !a.Start? && !a.Finish? && !a.Skip? && !a.MainFlowScene? && !a.MainQuestScene?
    requires Enabled(c, u, a)
    ensures StoryStays(u, Step(c, u, a))
    ensures PaysPackage(u, Step(c, u, a), Payee(c, u, a))
  {
    hide Step, Enabled, StoryStays, PaysPackage, CanEvaluate, Payout;
    if a.SideFinish?() { SideFinishKeeps(c, u, a); }
    else if a.SideStart?() { SideStartStepKeeps(c, u, a); }
    else if a.EventScene? || a.ExtraScene? { SideSceneKeeps(c, u, a); }
    else if a.ReplayScene? { ReplaySceneKeeps(c, u, a); }
    else { RestartStepKeeps(c, u, a); }
  }

  lemma StepPays(c: Catalog, u: User, a: Action)
    requires Enabled(c, u, a) && ScenesNumbered(c)
    ensures PaysPackage(u, Step(c, u, a), Payee(c, u, a))
  {
    hide Step, Enabled, NotBehind, StoryStep, StoryStays, CanEvaluate, Payout, MapMissions, ChainPayee;
    if a.Start? { StartPays(c, u, a); }
    else if a.Finish? { FinishStory(c, u, a); }
    else if a.Skip? { SkipStory(c, u, a); }
    else if a.MainFlowScene? { MainFlowSceneStory(c, u, a); }
    else if a.MainQuestScene? { MainQuestSceneStory(c, u, a); }
    else { OtherStepKeeps(c, u, a); }
  }

  // ---- Runs ----

  lemma {:induction false} SnapshotHeld(c: Catalog, us: seq<User>, acts: seq<Action>)
    requires Run(c, us, acts) && ScenesNumbered(c)
    requires us[0].main.saved.active && forall a :: a in acts ==> !a.Finish?
    ensures us[|acts|].main.saved == us[0].main.saved
  {
    hide StepTo;
    if acts != [] {
      var n := |acts| - 1;
      SnapshotHeld(c, us[..n + 1], acts[..n]);
      StepToStory(c, us[n], acts[n], us[n + 1]);
    }
  }

  lemma StepToStory(c: Catalog, u: User, a: Action, v: User)
    requires StepTo(c, u, a, v) && ScenesNumbered(c)
    ensures StoryStep(c, u, a, v) && (ReplayHolds(u) ==> ReplayHolds(v))
  {
    hide Step, Enabled, StoryStep, ReplayHolds;
    StepStory(c, u, a);
  }

  /** A replay never disturbs the story: the finish that ends it leaves scene, head, route, season, the
      reached-last flag and the cage as they were before the start that took the snapshot, whatever
      happened in between. */
  lemma ReplayRestoresStory(c: Catalog, us: seq<User>, acts: seq<Action>)
    requires Run(c, us, acts) && ScenesNumbered(c)
    requires |acts| >= 2 && acts[|acts| - 1].Finish?
    requires forall i :: 0 < i < |acts| - 1 ==> !acts[i].Finish?
    requires !us[0].main.saved.active && us[1].main.saved.active
    ensures acts[0].Start?
    ensures !us[|acts|].main.saved.active && Snapshot(us[|acts|]) == Snapshot(us[0])
  {
    hide StepTo;
    var n := |acts| - 1;
    StepToStory(c, us[0], acts[0], us[1]);
    forall a | a in acts[1..n] ensures !a.Finish? {
      var i :| 0 <= i < n - 1 && a == acts[1..n][i];
      assert a == acts[i + 1];
    }
    SubRun(c, us, acts, 1, n);
    SnapshotHeld(c, us[1..n + 1], acts[1..n]);
    StepToStory(c, us[n], acts[n], us[n + 1]);
  }

  lemma SubRun(c: Catalog, us: seq<User>, acts: seq<Action>, i: nat, j: nat)
    requires Run(c, us, acts) && i <= j <= |acts|
    ensures Run(c, us[i..j + 1], acts[i..j])
  {
    hide StepTo;
    forall k | 0 <= k < j - i ensures StepTo(c, us[i..j + 1][k], acts[i..j][k], us[i..j + 1][k + 1]) {
      assert StepTo(c, us[i + k], acts[i + k], us[i + k + 1]);
    }
  }

  /** The head scene the player keeps: the saved one while a snapshot is held. */
  function CommittedHead(u: User): int {
    if u.main.saved.active then u.main.saved.head else u.main.head
  }

  /** The committed head never moves backwards in the story. */
  lemma {:induction false} CommittedHeadAdvances(c: Catalog, us: seq<User>, acts: seq<Action>, i: nat, j: nat)
    requires Run(c, us, acts) && ScenesNumbered(c)
    requires i <= j < |us|
    ensures NotBehind(c, CommittedHead(us[i]), CommittedHead(us[j]))
    decreases j
  {
    hide StepTo;
    if i < j {
      CommittedHeadAdvances(c, us, acts, i, j - 1);
      StepToStory(c, us[j - 1], acts[j - 1], us[j]);
      assert NotBehind(c, CommittedHead(us[j - 1]), CommittedHead(us[j]));
    }
  }

  /** Replay rewards and replay pointers are in play only while a snapshot is held. */
  lemma {:induction false} ReplaysHoldSnapshots(c: Catalog, us: seq<User>, acts: seq<Action>)
    requires Run(c, us, acts) && ScenesNumbered(c) && ReplayHolds(us[0])
    ensures ReplayHolds(us[|acts|])
  {
    hide StepTo, ReplayHolds;
    if acts != [] {
      var n := |acts| - 1;
      ReplaysHoldSnapshots(c, us[..n + 1], acts[..n]);
      StepToStory(c, us[n], acts[n], us[n + 1]);
    }
  }

  /** The first-clear package of a quest was paid once if its flag is set, and never otherwise. */
  ghost predicate PackagesMatchFlags(u: User) {
    forall q :: multiset(u.packages)[q] == if Paid(u, q) then 1 else 0
  }

  lemma PackageKeepsMatch(u: User, v: User, p: Option<int>)
    requires PackagesMatchFlags(u) && PaysPackage(u, v, p)
    ensures PackagesMatchFlags(v)
  {
    hide Paid;
    forall q ensures multiset(v.packages)[q] == if Paid(v, q) then 1 else 0 {
      assert multiset(v.packages)[q] == multiset(u.packages)[q] + if p == Some(q) then 1 else 0;
    }
  }

  /** Over any run of every handler, each first-clear package is paid exactly once if its flag is set, never
      otherwise; and a flag once set stays set. */
  lemma {:induction false} PackagesPaidOnce(c: Catalog, us: seq<User>, acts: seq<Action>)
    requires Run(c, us, acts) && ScenesNumbered(c)
    requires PackagesMatchFlags(us[0])
    ensures PackagesMatchFlags(us[|acts|])
    ensures forall i, q :: 0 <= i < |acts| && Paid(us[i], q) ==> Paid(us[|acts|], q)
  {
    hide StepTo, Paid, PackagesMatchFlags;
    if acts != [] {
      var n := |acts| - 1;
      PackagesPaidOnce(c, us[..n + 1], acts[..n]);
      StepToPays(c, us[n], acts[n], us[n + 1]);
      PackageKeepsMatch(us[n], us[n + 1], Payee(c, us[n], acts[n]));
    }
  }

  /** A new account starts in step. */
  lemma NothingPaid(u: User)
    requires u.packages == [] && forall q :: !Paid(u, q)
    ensures PackagesMatchFlags(u)
  {
    hide Paid;
  }

  lemma StepToPays(c: Catalog, u: User, a: Action, v: User)
    requires StepTo(c, u, a, v) && ScenesNumbered(c)
    ensures Enabled(c, u, a) && PaysPackage(u, v, Payee(c, u, a))
  {
    hide Step, Enabled, Payee, PaysPackage;
    StepPays(c, u, a);
  }
}
