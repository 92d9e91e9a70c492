/** The part of store.UserState that the quest handlers change. Quantities of type int32 and int64 are
    integers; a missing map entry reads as the zero value, as in Go. */
module Store {
  function GetOr<K, V>(m: map<K, V>, k: K, default: V): V {
    if k in m then m[k] else default
  }

  datatype Status = Status(level: int, exp: int, staminaMilli: int, staminaUpdated: int)

  /** Possession type, id and count handed to the granter. */
  datatype Grant = Grant(kind: int, id: int, count: int)

  datatype FlowType = NoFlow | MainFlow | SubFlow | ReplayFlow | AnotherRouteReplayFlow

  datatype QuestState = NotStarted | Active | Cleared

  datatype Quest = Quest(
    id: int, state: QuestState, battleOnly: bool, deck: int, started: int,
    clears: int, dailyClears: int, lastClear: int, rewardGranted: bool)

  const NO_QUEST := Quest(0, NotStarted, false, 0, 0, 0, 0, 0, false)

  datatype Mission = Mission(questId: int, missionId: int, progress: int, clear: bool, lastClear: int)

  const NO_MISSION := Mission(0, 0, 0, false, 0)

  type MissionKey = (int, int)

  datatype SavedContext = SavedContext(
    active: bool, scene: int, head: int, route: int, season: int, reachedLast: bool, cage: bool)

  const NO_CONTEXT := SavedContext(false, 0, 0, 0, 0, false, false)

  datatype MainQuest = MainQuest(
    flow: FlowType, route: int, scene: int, head: int, reachedLast: bool,
    progressScene: int, progressHead: int, progressFlow: FlowType,
    season: int, version: int, saved: SavedContext, replayScene: int, replayHead: int)

  datatype PortalCage = PortalCage(inProgress: bool, version: int)

  datatype SideStory = SideStory(questId: int, sceneId: int, version: int)

  datatype EventQuest = EventQuest(chapter: int, questId: int, scene: int, head: int, version: int)

  datatype ExtraQuest = ExtraQuest(questId: int, scene: int, head: int)

  datatype Character = Character(level: int, exp: int)

  datatype Costume = Costume(costumeId: int, limitBreak: int, level: int, exp: int)

  datatype Deck = Deck(member1: string, member2: string, member3: string)

  /** A user as one value. granted lists what was handed to the granter and packages the quests whose
      first-clear package was paid out, both oldest first; they are the trail of the run. */
  datatype User = User(
    status: Status,
    quests: map<int, Quest>,
    missions: map<MissionKey, Mission>,
    main: MainQuest,
    cage: PortalCage,
    side: SideStory,
    event: EventQuest,
    extra: ExtraQuest,
    seasonRoutes: map<(int, int), int>,
    items: map<int, int>,
    characters: map<int, Character>,
    costumes: map<string, Costume>,
    decks: map<int, Deck>,
    deckCostumes: map<string, string>,
    granted: seq<Grant>,
    packages: seq<int>)

  /** The record the handlers update in place. */
  class UserState {
    var status: Status
    var quests: map<int, Quest>
    var missions: map<MissionKey, Mission>
    var main: MainQuest
    var cage: PortalCage
    var side: SideStory
    var event: EventQuest
    var extra: ExtraQuest
    var seasonRoutes: map<(int, int), int>
    var items: map<int, int>
    var characters: map<int, Character>
    var costumes: map<string, Costume>
    var decks: map<int, Deck>
    var deckCostumes: map<string, string>
    ghost var granted: seq<Grant>
    ghost var packages: seq<int>

    ghost function View(): User
      reads this
    {
      User(status, quests, missions, main, cage, side, event, extra, seasonRoutes, items,
           characters, costumes, decks, deckCostumes, granted, packages)
    }
  }
}
