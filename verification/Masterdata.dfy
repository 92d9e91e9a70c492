/** The part of masterdata.QuestCatalog and the game configuration the quest handlers read. */
module Masterdata {
  import opened Wrappers
  import opened Store
  import opened Experience

  datatype QuestDef = QuestDef(
    stamina: int, userExp: int, characterExp: int, costumeExp: int, gold: int,
    inBackground: bool, counted: bool,
    firstClearGroup: int, pickupGroup: int, replayGroup: int)

  datatype ResultType = UnknownResult | NoResult | HalfResult | FullResult

  datatype Scene = Scene(questId: int, sortOrder: int, result: ResultType)

  datatype MissionDef = MissionDef(isComplete: bool, rewardId: int)

  /** When the condition quest is cleared, the quest's first-clear group is this one. */
  datatype Switch = Switch(conditionQuest: int, group: int)

  datatype CostumeDef = CostumeDef(rarity: int, characterId: int)

  datatype Catalog = Catalog(
    quests: map<int, QuestDef>,
    scenes: map<int, Scene>,
    sceneIds: map<int, seq<int>>,
    chapterLastScene: map<int, int>,
    routeOfQuest: map<int, int>,
    seasonOfRoute: map<int, int>,
    withDifficulty: set<int>,
    battleOnlyTarget: map<int, int>,
    missionIds: map<int, seq<int>>,
    missions: map<int, MissionDef>,
    missionRewards: map<int, seq<Grant>>,
    switches: map<int, seq<Switch>>,
    firstClearRewards: map<int, seq<Grant>>,
    replayRewards: map<int, seq<Grant>>,
    pickups: map<int, seq<int>>,
    battleDrops: map<int, Grant>,
    sceneGrants: map<int, seq<Grant>>,
    rentalQuests: set<int>,
    userExp: seq<int>,
    characterExp: seq<int>,
    costumeExp: map<int, seq<int>>,
    costumeMaxLevel: map<int, map<int, int>>,
    costumes: map<int, CostumeDef>,
    maxStamina: map<int, int>,
    goldItem: int,
    skipTicketItem: int)
  {
    function Scenes(q: int): seq<int> { GetOr(sceneIds, q, []) }
    function MissionIds(q: int): seq<int> { GetOr(missionIds, q, []) }
    function MaxStaminaMilli(level: int): int { GetOr(maxStamina, level, 0) * 1000 }

    /** Position of a scene in the story; an unknown scene has the zero row's. */
    function SortOrder(scene: int): int {
      if scene in scenes then scenes[scene].sortOrder else 0
    }

    predicate Playable(q: int)
      requires q in quests
    {
      !quests[q].inBackground && quests[q].counted
    }

    /** Thresholds and level cap for a costume at its limit break. */
    function Rules(def: CostumeDef, limitBreak: int): CostumeRules {
      CostumeRules(
        if def.rarity in costumeExp then Some(costumeExp[def.rarity]) else None,
        if def.rarity in costumeMaxLevel then Some(GetOr(costumeMaxLevel[def.rarity], limitBreak, 0)) else None)
    }
  }
}
