/** What the quest handlers of questflow/ do to a user, handler by handler, as functions on the user's
    value. The handlers themselves are in QuestRewards, QuestScenes, QuestMain, QuestProgress and SideQuests;
    QuestRuns has what every run of them keeps. */
module QuestFlow {
  import opened Wrappers
  import opened Store
  import opened Stamina
  import opened Experience
  import opened Masterdata

  function QuestOf(u: User, q: int): Quest {
    GetOr(u.quests, q, NO_QUEST)
  }

  // ---- Missions ----

  /** Missions ids of quest q, in turn, each rewritten by f, missing ones from the zero row. */
  function MapMissions(ms: map<MissionKey, Mission>, q: int, ids: seq<int>, f: (int, Mission) -> Mission)
    : map<MissionKey, Mission>
  {
    if ids == [] then ms
    else
      var n := |ids| - 1;
      var before := MapMissions(ms, q, ids[..n], f);
      before[(q, ids[n]) := f(ids[n], GetOr(before, (q, ids[n]), NO_MISSION))]
  }

  function Named(q: int): (int, Mission) -> Mission {
    (id, m: Mission) => m.(questId := q, missionId := id)
  }

  function ClearedAt(now: int): (int, Mission) -> Mission {
    (id, m: Mission) => m.(clear := true, progress := 1, lastClear := now)
  }

  function Restarted(q: int): (int, Mission) -> Mission {
    (id, m: Mission) => m.(questId := q, missionId := id, clear := false, progress := 0, lastClear := 0)
  }

  function InitQuest(c: Catalog, u: User, q: int): User {
    u.(quests := u.quests[q := QuestOf(u, q).(id := q)],
       missions := MapMissions(u.missions, q, c.MissionIds(q), Named(q)))
  }

  function ClearMissions(c: Catalog, u: User, q: int, now: int): User {
    u.(missions := MapMissions(u.missions, q, c.MissionIds(q), ClearedAt(now)))
  }

  // ---- Scenes ----

  function Ahead(c: Catalog, scene: int, head: int): bool {
    head == 0 || c.SortOrder(scene) > c.SortOrder(head)
  }

  /** The chapter's last scene is known: getChapterLastSceneId does not panic. */
  predicate HasLastScene(c: Catalog, q: int) {
    q in c.chapterLastScene || c.Scenes(q) != []
  }

  function LastScene(c: Catalog, q: int): int
    requires HasLastScene(c, q)
  {
    if q in c.chapterLastScene then c.chapterLastScene[q] else c.Scenes(q)[|c.Scenes(q)| - 1]
  }

  function RecordRoute(u: User, season: int, route: int, now: int): User {
    if season <= 0 || route <= 0 || (season, route) in u.seasonRoutes then u
    else u.(seasonRoutes := u.seasonRoutes[(season, route) := now])
  }

  predicate CanAdvance(c: Catalog, u: User, q: int, scene: int) {
    Ahead(c, scene, u.main.head) ==> HasLastScene(c, q)
  }

  /** The story position at the scene, on the quest's route and in the route's season. */
  function MovedTo(c: Catalog, m: MainQuest, q: int, scene: int): MainQuest
    requires HasLastScene(c, q)
  {
    var at := m.(scene := scene, head := scene, reachedLast := scene == LastScene(c, q));
    if q !in c.routeOfQuest then at
    else if c.routeOfQuest[q] !in c.seasonOfRoute then at.(route := c.routeOfQuest[q])
    else at.(route := c.routeOfQuest[q], season := c.seasonOfRoute[c.routeOfQuest[q]])
  }

  function Advance(c: Catalog, u: User, q: int, scene: int, clock: int): User
    requires CanAdvance(c, u, q, scene)
  {
    if !Ahead(c, scene, u.main.head) then u
    else
      var v := u.(main := MovedTo(c, u.main, q, scene));
      if q in c.routeOfQuest && c.routeOfQuest[q] in c.seasonOfRoute
      then RecordRoute(v, v.main.season, v.main.route, clock) else v
  }

  function Granted(u: User, gs: seq<Grant>): User {
    u.(granted := u.granted + gs)
  }

  // ---- Rewards ----

  predicate IsCleared(u: User, q: int)
    requires q in u.quests
  {
    u.quests[q].state.Cleared?
  }

  /** The switch rows are scanned up to the first cleared condition quest; each one scanned must be known. */
  predicate SwitchesKnown(u: User, rows: seq<Switch>) {
    rows == [] || (rows[0].conditionQuest in u.quests
                   && (IsCleared(u, rows[0].conditionQuest) || SwitchesKnown(u, rows[1..])))
  }

  function SwitchedGroup(u: User, rows: seq<Switch>, group: int): int
    requires SwitchesKnown(u, rows)
  {
    if rows == [] then group
    else if IsCleared(u, rows[0].conditionQuest) then rows[0].group
    else SwitchedGroup(u, rows[1..], group)
  }

  predicate GroupKnown(c: Catalog, u: User, q: int) {
    SwitchesKnown(u, GetOr(c.switches, q, []))
  }

  function FirstClearGroup(c: Catalog, u: User, q: int): int
    requires q in c.quests && GroupKnown(c, u, q)
  {
    SwitchedGroup(u, GetOr(c.switches, q, []), c.quests[q].firstClearGroup)
  }

  /** The first-clear package of q for this user. */
  function FirstClear(c: Catalog, u: User, q: int): seq<Grant>
    requires q in c.quests && GroupKnown(c, u, q)
  {
    GetOr(c.firstClearRewards, FirstClearGroup(c, u, q), [])
  }

  function DropsOf(c: Catalog, ids: seq<int>): seq<Grant> {
    if ids == [] then []
    else
      var n := |ids| - 1;
      DropsOf(c, ids[..n]) + if ids[n] in c.battleDrops then [c.battleDrops[ids[n]]] else []
  }

  function Drops(c: Catalog, def: QuestDef): seq<Grant> {
    if def.pickupGroup == 0 then [] else DropsOf(c, GetOr(c.pickups, def.pickupGroup, []))
  }

  function ReplayRewards(c: Catalog, u: User, def: QuestDef): seq<Grant> {
    if u.main.flow == ReplayFlow && def.replayGroup > 0 then GetOr(c.replayRewards, def.replayGroup, []) else []
  }

  predicate RegularMission(c: Catalog, id: int) {
    id in c.missions && !c.missions[id].isComplete
  }

  predicate AnyRegular(c: Catalog, ids: seq<int>) {
    ids != [] && (AnyRegular(c, ids[..|ids| - 1]) || RegularMission(c, ids[|ids| - 1]))
  }

  predicate CompleteMission(c: Catalog, id: int) {
    id in c.missions && c.missions[id].isComplete
  }

  predicate Uncleared(u: User, q: int, id: int) {
    !GetOr(u.missions, (q, id), NO_MISSION).clear
  }

  function RegularRewards(c: Catalog, u: User, q: int, ids: seq<int>): seq<Grant> {
    if ids == [] then []
    else
      var n, id := |ids| - 1, ids[|ids| - 1];
      RegularRewards(c, u, q, ids[..n])
      + if RegularMission(c, id) && Uncleared(u, q, id) then GetOr(c.missionRewards, c.missions[id].rewardId, []) else []
  }

  function BigWins(c: Catalog, u: User, q: int, ids: seq<int>): seq<int> {
    if ids == [] then []
    else
      var n, id := |ids| - 1, ids[|ids| - 1];
      BigWins(c, u, q, ids[..n]) + if CompleteMission(c, id) && Uncleared(u, q, id) then [id] else []
  }

  function CompleteRewards(c: Catalog, u: User, q: int, ids: seq<int>): seq<Grant> {
    if ids == [] then []
    else
      var n, id := |ids| - 1, ids[|ids| - 1];
      CompleteRewards(c, u, q, ids[..n])
      + if CompleteMission(c, id) && Uncleared(u, q, id) then GetOr(c.missionRewards, c.missions[id].rewardId, []) else []
  }

  /** What a finish reports to the player. */
  datatype Outcome = Outcome(
    drops: seq<Grant>, firstClear: seq<Grant>, replay: seq<Grant>,
    missionClear: seq<Grant>, missionComplete: seq<Grant>, bigWins: seq<int>, isBigWin: bool)

  predicate CanEvaluate(c: Catalog, u: User, q: int) {
    && q in c.quests && q in u.quests
    && (!u.quests[q].rewardGranted ==> GroupKnown(c, u, q))
  }

  lemma EvaluateKnown(c: Catalog, u: User, q: int)
    requires CanEvaluate(c, u, q)
    ensures q in c.quests && q in u.quests
  {
  }

  function Evaluate(c: Catalog, u: User, q: int): Outcome
    requires CanEvaluate(c, u, q)
  {
    var ids := c.MissionIds(q);
    var anyRegular := AnyRegular(c, ids);
    var wins := if anyRegular then BigWins(c, u, q, ids) else [];
    Outcome(
      Drops(c, c.quests[q]),
      if u.quests[q].rewardGranted then [] else FirstClear(c, u, q),
      ReplayRewards(c, u, c.quests[q]),
      RegularRewards(c, u, q, ids),
      if anyRegular then CompleteRewards(c, u, q, ids) else [],
      wins,
      |wins| > 0)
  }

  // ---- Experience ----

  datatype Units = Units(costumes: set<string>, characters: set<int>)

  function Members(d: Deck): set<string> {
    {d.member1, d.member2, d.member3} - {""}
  }

  /** Costumes and characters of the deck the quest is played with; None when there are no costumes. */
  function DeckUnits(c: Catalog, u: User, q: int): Option<Units> {
    var number := QuestOf(u, q).deck;
    if number == 0 || number !in u.decks then None
    else
      var worn := set m | m in Members(u.decks[number]) && m in u.deckCostumes && u.deckCostumes[m] != "" :: u.deckCostumes[m];
      if worn == {} then None
      else
        Some(Units(worn,
          set k | k in worn && k in u.costumes && u.costumes[k].costumeId in c.costumes
            :: c.costumes[u.costumes[k].costumeId].characterId))
  }

  function CharacterAfter(c: Catalog, row: Character, amount: int): Character {
    var l := LevelAndCapOf(row.exp + amount, c.characterExp);
    Character(l.level, l.exp)
  }

  function CharactersAfter(c: Catalog, rows: map<int, Character>, ids: set<int>, amount: int): map<int, Character> {
    map id | id in rows.Keys + ids ::
      if id in ids then CharacterAfter(c, GetOr(rows, id, Character(0, 0)), amount) else rows[id]
  }

  /** None when the costume is unknown to the catalog or at its cap. */
  function CostumeAfter(c: Catalog, row: Costume, amount: int): Option<Costume> {
    if row.costumeId !in c.costumes then None
    else CostumeGain(row, amount, c.Rules(c.costumes[row.costumeId], row.limitBreak))
  }

  const NO_COSTUME := Costume(0, 0, 0, 0)

  predicate CostumeGains(c: Catalog, rows: map<string, Costume>, key: string, amount: int) {
    CostumeAfter(c, GetOr(rows, key, NO_COSTUME), amount).Some?
  }

  function CostumesAfter(c: Catalog, rows: map<string, Costume>, keys: set<string>, amount: int): map<string, Costume> {
    map k | k in rows.Keys + keys && (k in rows || CostumeGains(c, rows, k, amount)) ::
      if k in keys && CostumeGains(c, rows, k, amount)
      then CostumeAfter(c, GetOr(rows, k, NO_COSTUME), amount).value
      else rows[k]
  }

  function StatusAfterExp(c: Catalog, st: Status, amount: int, now: int): Status {
    var l := LevelAndCapOf(st.exp + amount, c.userExp);
    var next := st.(level := l.level, exp := l.exp);
    if l.level > st.level && l.level in c.maxStamina
    then next.(staminaMilli := c.maxStamina[l.level] * 1000, staminaUpdated := now)
    else next
  }

  /** Characters and costumes of the deck gain experience; a rental deck's do not. */
  function Trained(c: Catalog, u: User, q: int): Units
    requires q in c.quests
  {
    var units := DeckUnits(c, u, q);
    if q in c.rentalQuests || units.None? then Units({}, {})
    else Units(if c.quests[q].costumeExp == 0 then {} else units.value.costumes,
               if c.quests[q].characterExp == 0 then {} else units.value.characters)
  }

  function ApplyExp(c: Catalog, u: User, q: int, now: int): User {
    if q !in c.quests then u
    else
      var def, trained := c.quests[q], Trained(c, u, q);
      u.(status := StatusAfterExp(c, u.status, def.userExp, now),
         characters := CharactersAfter(c, u.characters, trained.characters, def.characterExp),
         costumes := CostumesAfter(c, u.costumes, trained.costumes, def.costumeExp))
  }

  function AddItem(u: User, item: int, count: int): User {
    u.(items := u.items[item := GetOr(u.items, item, 0) + count])
  }

  /** applyQuestRewards: experience, gold and the first-clear package. */
  function ApplyRewards(c: Catalog, u: User, q: int, now: int): User
    requires q in c.quests && GroupKnown(c, u, q)
  {
    var v := ApplyExp(c, u, q, now);
    var w := if c.quests[q].gold != 0 then AddItem(v, c.goldItem, c.quests[q].gold) else v;
    Granted(w, FirstClear(c, u, q)).(packages := u.packages + [q])
  }

  lemma ExpKeeps(c: Catalog, u: User, q: int, now: int)
    ensures var v := ApplyExp(c, u, q, now);
            v == u.(status := v.status, characters := v.characters, costumes := v.costumes)
  {
    hide CharactersAfter, CostumesAfter, StatusAfterExp, Trained;
  }

  lemma RewardsKeep(c: Catalog, u: User, q: int, now: int)
    requires q in c.quests && GroupKnown(c, u, q)
    ensures var v := ApplyRewards(c, u, q, now);
            && v == u.(status := v.status, characters := v.characters, costumes := v.costumes, items := v.items,
                       granted := v.granted, packages := v.packages)
            && v.granted == u.granted + FirstClear(c, u, q)
            && v.packages == u.packages + [q]
  {
    hide ApplyExp, GroupKnown, FirstClear;
    ExpKeeps(c, u, q, now);
  }

  /** applyQuestVictory, given what the finish reports. */
  function Victory(c: Catalog, u: User, q: int, o: Outcome, now: int): User
    requires CanEvaluate(c, u, q)
  {
    var quest := u.quests[q];
    var paid := if quest.rewardGranted then u else ApplyRewards(c, u, q, now);
    var v := Granted(paid, o.drops + o.replay);
    v.(quests := v.quests[q := quest.(rewardGranted := true, state := Cleared, clears := quest.clears + 1,
                                      dailyClears := quest.dailyClears + 1, lastClear := now, battleOnly := false)])
  }

  // ---- Main quest handlers ----

  function Snapshot(u: User): SavedContext {
    SavedContext(true, u.main.scene, u.main.head, u.main.route, u.main.season, u.main.reachedLast, u.cage.inProgress)
  }

  /** A snapshot that is active is kept. */
  function SavedAfter(u: User): SavedContext {
    if u.main.saved.active then u.main.saved else Snapshot(u)
  }

  function MenuPickScene(c: Catalog, q: int, battleOnly: bool): int {
    if battleOnly && q in c.battleOnlyTarget then c.battleOnlyTarget[q]
    else if c.Scenes(q) != [] then c.Scenes(q)[0]
    else 0
  }

  function PayStamina(c: Catalog, u: User, q: int, now: int): User
    requires q in c.quests
  {
    if c.quests[q].stamina > 0
    then u.(status := Consumed(u.status, c.quests[q].stamina, c.MaxStaminaMilli(u.status.level), now))
    else u
  }

  /** How a start enters the quest: picked from the menu, replayed from the map, or in the story's flow. */
  datatype Entrance = MenuPick | MapReplay | InFlow

  function EntranceOf(c: Catalog, cleared: bool, q: int, mainFlow: bool, replay: bool): Entrance {
    if !replay && !mainFlow && (cleared || q in c.withDifficulty) then MenuPick
    else if cleared && replay then MapReplay
    else InFlow
  }

  function MainEntering(c: Catalog, u: User, q: int, battleOnly: bool, via: Entrance, now: int): MainQuest {
    match via
    case MenuPick =>
      var scene := MenuPickScene(c, q, battleOnly);
      u.main.(saved := SavedAfter(u), progressScene := scene, progressHead := scene, progressFlow := MainFlow, version := now)
    case MapReplay =>
      u.main.(saved := SavedAfter(u), flow := ReplayFlow, replayScene := 0, replayHead := 0, version := now)
    case InFlow => u.main
  }

  /** The replay bookkeeping of a start. */
  function EnterReplay(c: Catalog, u: User, q: int, battleOnly: bool, mainFlow: bool, replay: bool, now: int): User {
    var via := EntranceOf(c, QuestOf(u, q).state.Cleared?, q, mainFlow, replay);
    u.(main := MainEntering(c, u, q, battleOnly, via, now),
       cage := if via == MenuPick then PortalCage(false, now) else u.cage,
       side := if via == MenuPick then SideStory(0, 0, now) else u.side)
  }

  /** A quest played in the background counts as played when it starts, and the story moves to its first scene. */
  predicate StoryReady(c: Catalog, u: User, q: int)
    requires q in c.quests
  {
    !c.Playable(q) && c.Scenes(q) != [] ==> CanAdvance(c, u, q, c.Scenes(q)[0])
  }

  function ToMainFlow(u: User): User {
    u.(main := u.main.(flow := MainFlow))
  }

  function InStory(c: Catalog, u: User, q: int, clock: int): User
    requires q in c.quests && StoryReady(c, u, q)
  {
    if c.Playable(q) then ToMainFlow(u)
    else if c.Scenes(q) == [] then u
    else ToMainFlow(Advance(c, u, q, c.Scenes(q)[0], clock))
  }

  function QuestEntered(c: Catalog, quest: Quest, q: int, battleOnly: bool, deck: int, now: int): Quest
    requires q in c.quests
  {
    if !quest.state.Cleared? && !c.Playable(q)
    then quest.(battleOnly := battleOnly, deck := deck, state := Cleared, clears := 1, dailyClears := 1, lastClear := now)
    else quest.(battleOnly := battleOnly, deck := deck, state := Active, started := now)
  }

  predicate CanStart(c: Catalog, u: User, q: int) {
    q in c.quests && (!QuestOf(u, q).state.Cleared? ==> StoryReady(c, u, q))
  }

  /** Initialised, paid for and entered, the quest's own row not yet written back. */
  function Entered(c: Catalog, u: User, q: int, battleOnly: bool, mainFlow: bool, replay: bool, now: int): User
    requires q in c.quests
  {
    EnterReplay(c, PayStamina(c, InitQuest(c, u, q), q, now), q, battleOnly, mainFlow, replay, now)
  }

  lemma PayKeeps(c: Catalog, u: User, q: int, now: int)
    requires q in c.quests
    ensures var v := PayStamina(c, u, q, now); v == u.(status := v.status)
  {
    hide Consumed;
    if c.quests[q].stamina > 0 {
    }
  }

  lemma EnterKeeps(c: Catalog, u: User, q: int, battleOnly: bool, mainFlow: bool, replay: bool, now: int)
    ensures var v := EnterReplay(c, u, q, battleOnly, mainFlow, replay, now);
            && v == u.(main := v.main, cage := v.cage, side := v.side)
            && v.main.head == u.main.head && v.main.scene == u.main.scene && v.main.route == u.main.route
            && v.main.season == u.main.season && v.main.reachedLast == u.main.reachedLast
  {
    hide SavedAfter, MenuPickScene, EntranceOf;
  }

  lemma EnteredKeeps(c: Catalog, u: User, q: int, battleOnly: bool, mainFlow: bool, replay: bool, now: int)
    requires q in c.quests
    ensures var v := Entered(c, u, q, battleOnly, mainFlow, replay, now);
            v.main.head == u.main.head && v.quests == u.quests[q := QuestOf(u, q).(id := q)]
  {
    hide MapMissions, PayStamina, EnterReplay;
    var paid := PayStamina(c, InitQuest(c, u, q), q, now);
    PayKeeps(c, InitQuest(c, u, q), q, now);
    EnterKeeps(c, paid, q, battleOnly, mainFlow, replay, now);
  }

  function Started(c: Catalog, u: User, q: int, battleOnly: bool, mainFlow: bool, deck: int, replay: bool, now: int, clock: int): User
    requires CanStart(c, u, q)
  {
    EnteredKeeps(c, u, q, battleOnly, mainFlow, replay, now);
    var v := Entered(c, u, q, battleOnly, mainFlow, replay, now);
    var w := if QuestOf(u, q).state.Cleared? then v else InStory(c, v, q, clock);
    w.(quests := w.quests[q := QuestEntered(c, v.quests[q], q, battleOnly, deck, now)])
  }

  predicate CanFinish(c: Catalog, u: User, q: int, retired: bool) {
    && CanEvaluate(c, InitQuest(c, u, q), q)
    && (!retired && c.Playable(q) && u.main.flow != ReplayFlow && !u.main.saved.active ==> c.Scenes(q) != [])
  }

  /** The stamina refund of a retreat. */
  function Refunded(c: Catalog, u: User, q: int, retired: bool, annihilated: bool, now: int): User
    requires q in c.quests
  {
    if retired && !annihilated && c.quests[q].stamina > 1
    then u.(status := Recovered(u.status, (c.quests[q].stamina - 1) * 1000, c.MaxStaminaMilli(u.status.level), now))
    else u
  }

  /** A retreat from a quest cleared before leaves it cleared. */
  function Reclosed(u: User, q: int, retired: bool): User {
    var quest := QuestOf(u, q);
    if retired && quest.clears > 0 && quest.state.Active?
    then u.(quests := u.quests[q := quest.(state := Cleared)]) else u
  }

  /** The saved story position put back, and the snapshot dropped. */
  function Restored(u: User, now: int): User {
    var s := u.main.saved;
    u.(main := u.main.(scene := s.scene, head := s.head, route := s.route, season := s.season,
                       reachedLast := s.reachedLast, saved := NO_CONTEXT, version := now),
       cage := PortalCage(s.cage, now))
  }

  /** Back to the main flow: the progress pointers are cleared, a snapshot is restored, replay pointers are cleared. */
  function FlowEnded(u: User, wasReplay: bool, wasMenuReplay: bool, now: int): User {
    var v := u.(main := u.main.(progressScene := 0, progressHead := 0, progressFlow := NoFlow, flow := MainFlow));
    var w := if wasMenuReplay then Restored(v, now) else v;
    if wasReplay then w.(main := w.main.(replayScene := 0, replayHead := 0)) else w
  }

  /** A victory's effects, unless the player retired. */
  function Resolved(c: Catalog, u: User, q: int, retired: bool, now: int): User
    requires CanEvaluate(c, u, q)
  {
    if retired then u else Victory(c, u, q, Evaluate(c, u, q), now)
  }

  function Finished(c: Catalog, u: User, q: int, retired: bool, annihilated: bool, now: int, clock: int): User
    requires CanFinish(c, u, q, retired)
  {
    var v := InitQuest(c, u, q);
    var wasReplay, wasMenuReplay := u.main.flow == ReplayFlow, u.main.saved.active;
    var won := Resolved(c, v, q, retired, now);
    var moved := if !retired && c.Playable(q) && !wasReplay && !wasMenuReplay
                 then Advance(c, won, q, c.Scenes(q)[|c.Scenes(q)| - 1], clock) else won;
    var x := Reclosed(Refunded(c, moved, q, retired, annihilated, now), q, retired);
    ClearMissions(c, FlowEnded(x, wasReplay, wasMenuReplay, now), q, now)
  }

  /** One skipped run: drops, gold, experience. */
  function SkipOnce(c: Catalog, u: User, q: int, now: int): User
    requires q in c.quests
  {
    var v := Granted(u, Drops(c, c.quests[q]));
    ApplyExp(c, if c.quests[q].gold != 0 then AddItem(v, c.goldItem, c.quests[q].gold) else v, q, now)
  }

  function SkipRuns(c: Catalog, u: User, q: int, n: nat, now: int): User
    requires q in c.quests
  {
    if n == 0 then u else SkipOnce(c, SkipRuns(c, u, q, n - 1, now), q, now)
  }

  /** Stamina and tickets for a number of skips; tickets do not go below zero. */
  function SkipPaid(c: Catalog, u: User, count: int, now: int): User {
    var left := GetOr(u.items, c.skipTicketItem, 0) - count;
    u.(status := Consumed(u.status, count, c.MaxStaminaMilli(u.status.level), now),
       items := u.items[c.skipTicketItem := if left < 0 then 0 else left])
  }

  function ClearsCounted(u: User, q: int, count: int, now: int): User {
    var quest := QuestOf(u, q);
    u.(quests := u.quests[q := quest.(clears := quest.clears + count, dailyClears := quest.dailyClears + count, lastClear := now)])
  }

  /** A negative count runs nothing, but is still subtracted and added. */
  function Skipped(c: Catalog, u: User, q: int, count: int, now: int): User
    requires q in c.quests
  {
    ClearsCounted(SkipRuns(c, SkipPaid(c, u, count, now), q, if count < 0 then 0 else count, now), q, count, now)
  }

  function RestartedQuest(c: Catalog, u: User, q: int, now: int): User {
    var v := if q in c.quests && c.Playable(q) && u.main.flow == NoFlow then ToMainFlow(u) else u;
    v.(quests := v.quests[q := QuestOf(v, q).(id := q, state := Active, started := now)],
       missions := MapMissions(v.missions, q, c.MissionIds(q), Restarted(q)))
  }

  predicate CanProgressMainFlow(c: Catalog, u: User, scene: int) {
    scene in c.scenes && c.scenes[scene].questId in c.quests && CanAdvance(c, u, c.scenes[scene].questId, scene)
  }

  function MainFlowProgressed(c: Catalog, u: User, scene: int, now: int, clock: int): User
    requires CanProgressMainFlow(c, u, scene)
  {
    var v := Advance(c, u, c.scenes[scene].questId, scene, clock);
    var w := v.(main := v.main.(flow := MainFlow),
                side := if v.side.questId != 0 then SideStory(0, 0, now) else v.side,
                cage := PortalCage(false, now));
    Granted(w, GetOr(c.sceneGrants, scene, []))
  }

  function ReplayProgressed(c: Catalog, u: User, scene: int, now: int): User {
    var head := if u.main.replayHead == 0 || Ahead(c, scene, u.main.replayHead) then scene else u.main.replayHead;
    u.(main := u.main.(replayScene := scene, replayHead := head, version := now))
  }

  predicate CanFinalize(c: Catalog, u: User, q: int) {
    q in c.quests ==>
      var v := InitQuest(c, u, q);
      v.quests[q].state.Cleared? || v.quests[q].rewardGranted || GroupKnown(c, v, q)
  }

  /** finalizeChainPreviousQuest: the quest left behind by a chain counts as cleared. */
  function Finalized(c: Catalog, u: User, q: int, now: int): User
    requires CanFinalize(c, u, q)
  {
    if q !in c.quests then u
    else
      var v := InitQuest(c, u, q);
      var quest := v.quests[q];
      if quest.state.Cleared? then v
      else
        var paid := if quest.rewardGranted then v else ApplyRewards(c, v, q, now);
        var done := quest.(rewardGranted := true, state := Cleared, clears := quest.clears + 1,
                           dailyClears := quest.dailyClears + 1, lastClear := now, battleOnly := false);
        ClearMissions(c, paid.(quests := paid.quests[q := done]), q, now)
  }

  /** The quest of the previous progress scene, when the chain has moved on to another quest. */
  function ChainPrevious(c: Catalog, u: User, q: int): Option<int> {
    var prev := u.main.progressScene;
    if prev != 0 && prev in c.scenes && c.scenes[prev].questId != q then Some(c.scenes[prev].questId) else None
  }

  predicate CanProgressMainQuest(c: Catalog, u: User, scene: int) {
    && scene in c.scenes && c.scenes[scene].questId in c.quests
    && var q := c.scenes[scene].questId;
       && (ChainPrevious(c, u, q).Some? ==> CanFinalize(c, u, ChainPrevious(c, u, q).value))
       && (!c.Playable(q) ==> HasLastScene(c, q))
  }

  /** The quest the chain has moved on from, if any, is finalised. */
  function LeftBehind(c: Catalog, u: User, q: int, clock: int): User
    requires ChainPrevious(c, u, q).Some? ==> CanFinalize(c, u, ChainPrevious(c, u, q).value)
  {
    var prev := ChainPrevious(c, u, q);
    if prev.Some? then Finalized(c, u, prev.value, clock) else u
  }

  /** A scene of a played quest moves the progress pointers. */
  function PlayedScene(c: Catalog, u: User, scene: int, clock: int): User
    requires scene in c.scenes
  {
    var v := if c.scenes[scene].result == HalfResult then ClearMissions(c, u, c.scenes[scene].questId, clock) else u;
    var head := if Ahead(c, scene, v.main.progressHead) then scene else v.main.progressHead;
    v.(main := v.main.(progressScene := scene, progressHead := head, flow := SubFlow, progressFlow := SubFlow))
  }

  /** A scene of a background quest moves the story pointers. */
  function BackgroundScene(c: Catalog, u: User, q: int, scene: int): User
    requires HasLastScene(c, q)
  {
    var head := if Ahead(c, scene, u.main.head) then scene else u.main.head;
    u.(main := u.main.(scene := scene, head := head, reachedLast := scene == LastScene(c, q)))
  }

  /** The handler reads the clock itself, once to finalize and once to clear missions. */
  function MainQuestProgressed(c: Catalog, u: User, scene: int, clock: int, clock2: int): User
    requires CanProgressMainQuest(c, u, scene)
  {
    var q := c.scenes[scene].questId;
    var v := LeftBehind(c, u, q, clock);
    if c.Playable(q) then PlayedScene(c, v, scene, clock2) else BackgroundScene(c, v, q, scene)
  }

  // ---- Event, extra and big hunt quests ----

  /** The common part of the three starts. */
  function SideStarted(c: Catalog, u: User, q: int, battleOnly: Option<bool>, deck: int, now: int): User
    requires q in c.quests
  {
    var v := PayStamina(c, InitQuest(c, u, q), q, now);
    var quest := if battleOnly.Some? then v.quests[q].(battleOnly := battleOnly.value) else v.quests[q];
    v.(quests := v.quests[q := quest.(deck := deck, state := Active, started := now)])
  }

  /** The common part of the three finishes. They do not initialise the quest: it must be known. */
  function SideFinished(c: Catalog, u: User, q: int, retired: bool, annihilated: bool, now: int): User
    requires CanEvaluate(c, u, q)
  {
    Refunded(c, Resolved(c, u, q, retired, now), q, retired, annihilated, now)
  }

  function EventStarted(c: Catalog, u: User, chapter: int, q: int, battleOnly: bool, deck: int, now: int): User
    requires q in c.quests
  {
    var v := SideStarted(c, u, q, Some(battleOnly), deck, now);
    var e := v.event.(chapter := chapter, questId := q);
    v.(event := if c.Scenes(q) == [] then e else e.(scene := c.Scenes(q)[0], head := c.Scenes(q)[0]))
  }

  function EventFinished(c: Catalog, u: User, q: int, retired: bool, annihilated: bool, now: int): User
    requires CanEvaluate(c, u, q)
  {
    ClearMissions(c, SideFinished(c, u, q, retired, annihilated, now).(event := EventQuest(0, 0, 0, 0, now)), q, now)
  }

  function EventRestarted(c: Catalog, u: User, chapter: int, q: int, now: int): User {
    var v := RestartedQuest(c, u, q, now);
    v.(event := v.event.(chapter := chapter, questId := q))
  }

  /** The scene's own effects in event and extra quests. */
  function SceneEffects(c: Catalog, u: User, scene: int, now: int): User
    requires scene in c.scenes
  {
    var v := Granted(u, GetOr(c.sceneGrants, scene, []));
    if c.scenes[scene].result == HalfResult then ClearMissions(c, v, c.scenes[scene].questId, now) else v
  }

  function AtEventScene(c: Catalog, u: User, scene: int): User {
    u.(event := u.event.(scene := scene, head := if Ahead(c, scene, u.event.head) then scene else u.event.head))
  }

  function EventProgressed(c: Catalog, u: User, scene: int, now: int): User {
    if scene !in c.scenes then u else SceneEffects(c, AtEventScene(c, u, scene), scene, now)
  }

  function ExtraStarted(c: Catalog, u: User, q: int, deck: int, now: int): User
    requires q in c.quests
  {
    var v := SideStarted(c, u, q, None, deck, now);
    v.(extra := if c.Scenes(q) == [] then v.extra.(questId := q) else ExtraQuest(q, c.Scenes(q)[0], c.Scenes(q)[0]))
  }

  function ExtraFinished(c: Catalog, u: User, q: int, retired: bool, annihilated: bool, now: int): User
    requires CanEvaluate(c, u, q)
  {
    ClearMissions(c, SideFinished(c, u, q, retired, annihilated, now).(extra := ExtraQuest(0, 0, 0)), q, now)
  }

  function ExtraRestarted(c: Catalog, u: User, q: int, now: int): User {
    var v := RestartedQuest(c, u, q, now);
    v.(extra := v.extra.(questId := q))
  }

  function AtExtraScene(c: Catalog, u: User, scene: int): User {
    u.(extra := u.extra.(scene := scene, head := if Ahead(c, scene, u.extra.head) then scene else u.extra.head))
  }

  function ExtraProgressed(c: Catalog, u: User, scene: int, now: int): User {
    if scene !in c.scenes then u else SceneEffects(c, AtExtraScene(c, u, scene), scene, now)
  }

  function HuntStarted(c: Catalog, u: User, q: int, deck: int, now: int): User
    requires q in c.quests
  {
    SideStarted(c, u, q, None, deck, now)
  }

  function HuntFinished(c: Catalog, u: User, q: int, retired: bool, annihilated: bool, now: int): User
    requires CanEvaluate(c, u, q)
  {
    ClearMissions(c, SideFinished(c, u, q, retired, annihilated, now), q, now)
  }
}
