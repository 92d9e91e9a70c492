# Verified model of a game server's hard parts

lunar-tear is a game backend written in Go. This project models, in Dafny, the parts of it that hold state
machines, parsers and arithmetic, and proves properties of them that span whole runs. Each step-by-step Go
function is an imperative method proved against a function on values; the theorems are lemmas about those
functions, for every input and every run.

- **Asset index** (`Varint`, `ListBin`, `ListBinRoundTrip`, `Mojibake`, `SingleFlight`, `SingleFlightReads`): the hand-written reader of the
  Protocol Buffers wire format ("Base 128 Varints", "Message Structure" and "Length-Delimited Records" of the
  Protocol Buffers "Encoding" document) undoes every encoding, and on any byte string returns exactly the map of the complete fields the
  string begins with; the mojibake re-encoder is invertible exactly on valid UTF-8 (section 3 of RFC 3629); the
  single-flight cache loaders are a labelled transition system over any number of callers, with safety,
  deadlock freedom and a bound on the steps to everyone's return.
- **Quest flow** (`Store`, `Masterdata`, `QuestFlow`, `QuestRewards`, `QuestScenes`, `QuestMain`, `QuestProgress`,
  `SideQuests`, `QuestRuns`, `QuestUpkeep`, `QuestReports`, `QuestRows`, `QuestMoves`, `QuestGains`, `QuestOutcome`, with the
  engines `Stamina` and `Experience`): every handler that starts, finishes, skips, restarts or moves a main, event, extra or big
  hunt quest, over one mutable user record. `QuestRuns` takes the handlers as the actions of a run and proves what every run
  keeps. `QuestRows`, `QuestMoves`, `QuestGains` and `QuestOutcome` say what one call writes, in terms of the fields before it
  alone: quest and mission rows, stamina and first-clear package; pointers and flow; experience, gold and skips; and the lists
  reported. A state's `granted` and `packages` are trails of what was handed to the granter; they are ghost in the class.
- **Gacha** (`Weighted`, `Rates`, `Premium`, `Box`, `DailyDraw`, `Pruning`, `Lottery`): weighted choice, the rate boost
  with its truncating division, guarantee slots, draws without replacement from a box, step-up and medal
  counters, the daily limit, in-place pruning and the costume lottery. Random numbers are arbitrary choices.
- **Big hunt, evolution, parts, keys** (`BigHunt`, `Evolution`, `EvolutionWalk`, `Parts`, `MapKey`): score rewards that telescope,
  evolution chains and the walk to their end, sub-status slots that track a part's level, composite map keys.

## Main results

- `SingleFlight.AnswersAgree`, `PublishedOnce`, `EveryoneReturns`: every interleaving of the cache loaders agrees on one
  published index and brings every caller home. `SingleFlightReads.AnswerWasRead`, `LeaderReturnsFile`, `LeaderCachesFile`: every
  answer is a file read for its key, a leader and its waiters return the file the leader read, and what a leader could read is cached.
- `ListBinRoundTrip.FileRoundTrip`, `CutFile`, `AnyInput`: the parser undoes every encoding, whole or cut, and is
  accounted for on any bytes; `FieldNumbers` and `SampleFile` give the format in figures.
- `QuestRows.FinishWritesRow`, `StartWritesRow`, `WinGrantsPackage`, `QuestMoves.StartMoves`, `FinishMoves`,
  `QuestGains.FinishEarns`, `SkipEarns`: what every start, finish and skip leaves behind, row by row and pointer by pointer.
- `QuestRuns.ReplayRestoresStory`, `CommittedHeadAdvances`, `PackagesPaidOnce`, `QuestReports.MissionRewardsOnce`,
  `QuestUpkeep.CostumesStayWithin`: what every run of all quest handlers keeps.
- `Weighted.ExactOdds`, `Box.BoxConserved`, `DailyDraw.DayDrawsUpToLimit`: exact odds, conservation and limits.
- `BigHunt.ScoreRewardsTelescope`, `Evolution.EvolvedAreAbove`, `EvolutionWalk.WalkEndsAtChainEnd`,
  `Parts.SlotsTrackLevel`, `MapKey.KeyRoundTrip`, `Stamina.PollingLosesLittle`, `Experience.GainTwice`.

Where the code does not meet a promise on all inputs, the condition under which it does is given exactly:

- a guarantee slot misses its minimum exactly when a pool it draws again from is empty and its stand-in lies below the
  minimum (`Premium.GuaranteeExactly`);
- a banner's box counts stay within their maxima exactly when the materials it takes have distinct ids and the stand-in
  is none of them (`Box.BannerNeverOverdrawnExactly`);
- a boost keeps the total weight, to within one unit per lesser tier, exactly when the extra does not exceed the lesser
  tiers' weight (`Rates.BoostConservesTotal`);
- a finish grants everything it reports exactly when nothing is reported, or the player did not retire and no uncleared
  mission of the quest carries a reward: mission rewards are reported and never granted (`QuestReports.FinishGrantsReport`);
- a score threshold between two maxima is paid exactly when its group was in force at the hunt that crossed it
  (`BigHunt.ThresholdPaidExactly`);
- evolution walks end exactly when no chain's last weapon comes back to itself, for any table; when no weapon is in two
  groups that is when no group's last row repeats a weapon of the group (`EvolutionWalk.WalksEndExactly`,
  `TableWalksEndExactly`);
- sub-status slots track levels exactly when no slot that unlocks at a reachable level can draw nothing known
  (`Parts.SlotsTrackExactly`);
- a day's draws hand out the items due exactly when there are materials or nothing is due (`DailyDraw.DayItemsExactly`);
- re-encoded text can be decoded back exactly when it was valid UTF-8 (`Mojibake.Invertible`).

Master data is taken as input. Where a theorem needs a table to be well formed it says so in a `requires`: scene id 0 is no
scene (`QuestRuns.ScenesNumbered`), thresholds are sorted as the loaders sort them, pool rows are filed under their own
rarity (`Premium.Filed`), a weapon is in one evolution row (`Evolution.OneRowEach`). Unknown ids on which the Go code panics
are preconditions (`CanStart`, `CanFinish` and the like).

## Model

| member | source | states |
|---|---|---|
| Varint.ReadVarint | server/internal/service/listbin.go:71-81 | the loop decodes the varint at the start of the bytes: value as the 64-bit two's complement number its payload bits spell, size 0 when the bytes end or ten pass without a final one |
| Varint.RoundTrip | server/internal/service/listbin.go:71-81 | reading undoes encoding for every unsigned 64-bit value, whatever bytes follow; values from 2^63 up come back as negative int64s |
| Varint.DecodeVarint | server/internal/service/listbin.go:71-81 | any spelling of a varint, padded ones included, is read whole and to its payload's value, whatever follows |
| Varint.CutVarint | server/internal/service/listbin.go:71-81 | a varint cut anywhere before its end reads as no varint |
| Varint.EncodeIsVarint | server/internal/service/listbin.go:71-81 | every value below 2^64 is encoded as one varint of at most ten bytes |
| ListBin.SkipProtoField | server/internal/service/listbin.go:83-110 | skips exactly the value of wire type 0, 1, 2 or 5 at the offset, and fails on cut values and other wire types |
| ListBin.ParseListBinEntry | server/internal/service/listbin.go:112-179 | the entry is what the complete, accepted fields of the record say, and ok tells whether it names an object |
| ListBin.ParseListBin | server/internal/service/listbin.go:181-216 | the index is that of the fields the stream splits into, up to the first incomplete one; it always terminates |
| ListBin.SplitSound | server/internal/service/listbin.go:181-216 | splitting loses no byte: the fields' encodings and the rest make up the input, and no further field begins the rest |
| ListBin.SplitConcat | server/internal/service/listbin.go:181-216 | a concatenation of well-formed fields splits back into exactly those fields, before any rest |
| ListBin.SplitCut | server/internal/service/listbin.go:181-216 | a stream cut at any byte splits into the fields wholly before the cut |
| ListBinRoundTrip.EntryRoundTrip | server/internal/service/listbin.go:112-179 | an entry encoded with its known fields in any order, each at most once, and unknown fields mixed in, is read back exactly; a size below 256 is dropped |
| ListBinRoundTrip.EntryFieldsEncode | server/internal/service/listbin.go:112-179 | the plain field list of any entry is such an encoding, so every entry has one |
| ListBinRoundTrip.FileRoundTrip | server/internal/service/listbin.go:181-216 | a file of encoded entries, unknown records mixed in, is read as the last-wins map of object id to entry |
| ListBinRoundTrip.CutFile | server/internal/service/listbin.go:181-216 | cut at any byte, such a file is read as the map of the records wholly before the cut |
| ListBinRoundTrip.WholeMeans | server/internal/service/listbin.go:181-216 | "wholly before the cut" counts the records that end by the cut, and the next one does not |
| ListBinRoundTrip.AnyInput | server/internal/service/listbin.go:181-216 | on any bytes at all the answer is the map of the complete well-formed fields they begin with |
| ListBinRoundTrip.FieldNumbers | server/internal/service/listbin.go:112-179 | with the numbers written out: the path is field 3, the size field 4, the digest field 10 and the object id field 11, for all contents, and a size counts from 256 on |
| ListBinRoundTrip.SampleEntry | server/internal/service/listbin.go:112-179 | the bytes of one entry, tags, lengths and a two-byte varint included, and what they are read as |
| ListBinRoundTrip.SampleFile | server/internal/service/listbin.go:181-216 | the bytes of one file, its record between fields of four and eight fixed bytes, and the index they are read as |
| Mojibake.Utf8ToMojibake | server/internal/service/listbin.go:331-355 | the output is the input's UTF-8 bytes, as Go decodes them, encoded again as if each byte were a code point |
| Mojibake.OutputCodePoints | server/internal/service/listbin.go:331-355 | the output's code points are all below 256 and read as bytes are the input's re-encoded runes |
| Mojibake.ValidRoundTrip | server/internal/service/listbin.go:331-355 | for valid UTF-8 those bytes are exactly the input |
| Mojibake.Invertible | server/internal/service/listbin.go:331-355 | the output gives the input back if and only if the input is valid UTF-8 |
| Mojibake.Injective | server/internal/service/listbin.go:331-355 | two valid texts with the same output are the same text |
| Mojibake.InvalidCollide | server/internal/service/listbin.go:331-355 | invalid byte strings do collide: a concrete pair |
| Mojibake.IdentityOnAscii | server/internal/service/listbin.go:331-355 | the re-encoding changes nothing if and only if the text is ASCII |
| Mojibake.EncodingFigures | server/internal/service/listbin.go:331-355 | the encoding of every rune in figures: lengths from 128, 2048 and 65536 on, ranges of first and tail bytes, and the payload they carry |
| Mojibake.SampleTexts | server/internal/service/listbin.go:331-355 | two texts in bytes and what they come out as, one valid and one not |
| SingleFlight.StepInv | server/internal/service/listbin.go:218-324 | every step of any caller of loadListBinIndex or loadInfoIndex keeps the protocol's invariant over locks, cache, in-flight loads and callers |
| SingleFlight.RunInv | server/internal/service/listbin.go:218-324 | so every state of every interleaving has it |
| SingleFlight.AtMostOneLeader | server/internal/service/listbin.go:218-324 | two callers never lead loads of one key at the same time |
| SingleFlight.PublishedOnce | server/internal/service/listbin.go:218-324 | a key is published at most once, and loadInfoIndex reads a key's file at most once ever |
| SingleFlight.CacheIsFinal | server/internal/service/listbin.go:218-324 | what is cached stays cached and unchanged for the rest of the run |
| SingleFlight.AnswersAgree | server/internal/service/listbin.go:218-324 | every successful return for a key, cached, joined or led, is the one published index |
| SingleFlight.WaitersHaveLeaders | server/internal/service/listbin.go:218-324 | whoever waits, waits for a load that is closed or still led by its running owner |
| SingleFlight.NoDeadlock | server/internal/service/listbin.go:218-324 | while a caller has not returned, some caller can move |
| SingleFlight.MovesAreBounded | server/internal/service/listbin.go:218-324 | between arrivals there are at most as many moves as steps left in all callers |
| SingleFlight.EveryoneReturns | server/internal/service/listbin.go:218-324 | once arrivals stop, moving until nobody can move takes a bounded number of steps and leaves every caller returned |
| SingleFlightReads.CachedWasRead | server/internal/service/listbin.go:218-324 | whatever is cached for a key at any time was read from the key's file by some caller before, and loadListBinIndex caches only files that could be read |
| SingleFlightReads.AnswerWasRead | server/internal/service/listbin.go:218-324 | every answer returned for a key was read from the key's file before it was returned |
| SingleFlightReads.LeaderReturnsFile | server/internal/service/listbin.go:218-324 | a caller that reads a file and has returned returned that file |
| SingleFlightReads.WaiterReturnsFile | server/internal/service/listbin.go:218-324 | so did every caller that waited on its load |
| SingleFlightReads.LeaderCachesFile | server/internal/service/listbin.go:218-324 | once a leader that could read its file has returned, the file is cached under its key |
| Stamina.SettleStamina | server/internal/store/stamina.go:7-21 | the in-place update is the lazy regeneration of one milli-unit per 180 ms up to the maximum |
| Stamina.ConsumeStamina | server/internal/store/stamina.go:23-28 | settles, subtracts down to zero at the least, and restarts the clock |
| Stamina.RecoverStamina | server/internal/store/stamina.go:30-35 | settles and adds without a cap |
| Stamina.ReplenishStamina | server/internal/store/stamina.go:37-41 | fills to the maximum given |
| Stamina.SettledBounds | server/internal/store/stamina.go:7-21 | settling never lowers the value nor lifts it past the maximum |
| Stamina.SettledTwice | server/internal/store/stamina.go:7-21 | one settling on the way costs at most one milli-unit |
| Stamina.PollingLosesLittle | server/internal/store/stamina.go:7-21 | n pollings give at most what one settling at the end gives and fall short by at most n - 1 |
| Stamina.PollingCanStall | server/internal/store/stamina.go:7-21 | the bound is met: polling every 179 ms never regenerates anything |
| Experience.LevelAndCap | server/internal/gameutil/exp.go:6-19 | the loop computes the level reached and caps the experience at the last threshold |
| Experience.LevelIsGreatest | server/internal/gameutil/exp.go:6-19 | in a sorted table the level is the greatest whose threshold is met, 1 at the least |
| Experience.GainTwice | server/internal/gameutil/exp.go:6-19 | gaining a then b is gaining a + b at once, level and experience alike |
| Experience.GainNeverLowers | server/internal/gameutil/exp.go:6-19 | a gain never lowers the level |
| Experience.GainCostumeExp | server/internal/questflow/rewards.go:179-206 | a costume at its cap is skipped, any other gains, and is set back to its cap's level and threshold when it would pass it |
| Experience.CostumeStaysUnderCap | server/internal/questflow/rewards.go:179-206 | quest experience never lifts a costume past its limit-break level cap |
| QuestRewards.InitQuestState | server/internal/questflow/quest.go:12-24 | names the quest and its missions and changes nothing else of them |
| QuestRewards.ClearQuestMissions | server/internal/questflow/quest.go:30-39 | marks every mission of the quest clear at the given time |
| QuestRewards.FirstClearRewardGroupId | server/internal/questflow/rewards.go:32-41 | the group of the first switch whose condition quest is cleared, else the quest's own |
| QuestRewards.EvaluateFinishOutcome | server/internal/questflow/rewards.go:43-121 | the report of a finish: first-clear package unless paid before, replay rewards in a replay, drops, rewards of uncleared missions |
| QuestRewards.ComputeDropRewards | server/internal/questflow/rewards.go:123-138 | the known drops of the quest's pickup group, in order |
| QuestRewards.ApplyExpRewards | server/internal/questflow/rewards.go:140-207 | user, characters and costumes of the quest's deck gain, rental decks and unresolved decks excepted; a level-up refills stamina |
| QuestRewards.ResolveDeckUnits | server/internal/questflow/rewards.go:209-241 | the costumes of the deck the quest is played with and their characters, none when there are no costumes |
| QuestRewards.ApplyQuestRewards | server/internal/questflow/rewards.go:243-260 | experience, gold and the first-clear package, once |
| QuestRewards.ApplyQuestVictory | server/internal/questflow/quest.go:144-166 | package on the first victory only, drops and replay rewards, and the quest row written back over nothing another call changed |
| QuestScenes.RecordSeasonRoute | server/internal/questflow/scene.go:48-68 | a season and route pair is recorded once, the first time |
| QuestScenes.AdvanceMainFlowScene | server/internal/questflow/scene.go:29-46 | scene, head, last-scene flag, route and season move only when the scene is ahead |
| QuestMain.SnapshotMainQuestIfNeeded | server/internal/questflow/quest.go:117-130 | saves the story position unless a snapshot is already held |
| QuestMain.HandleQuestStart | server/internal/questflow/quest.go:49-115 | a cleared quest becomes active again and a menu pick or map replay holds a snapshot first; a background quest counts as cleared at once and moves the story to its first scene; stamina is paid; no other quest, mission, reward or grant changes |
| QuestMain.FinalizeChainPreviousQuest | server/internal/questflow/quest.go:168-189 | the quest a chain leaves behind is paid and cleared unless it is cleared already |
| QuestMain.HandleQuestFinish | server/internal/questflow/quest.go:191-260 | the report is evaluated on the state before the victory changes it; a victory pays, a retreat refunds all but one unit and recloses a quest cleared before; a held snapshot comes back instead of the story moving on |
| QuestMain.HandleQuestSkip | server/internal/questflow/quest.go:262-299 | as many runs of drops, gold and experience as asked for, none for a negative count; tickets do not go below zero; the drops returned are exactly those granted; no first-clear package is paid |
| QuestMain.HandleQuestRestart | server/internal/questflow/quest.go:301-326 | the quest is active again and its missions are reset; a replay under way is not disturbed |
| QuestProgress.HandleMainFlowSceneProgress | server/internal/questflow/scene.go:70-94 | the story moves only to a scene ahead of its head, the cage and a side story are left, and the scene's grants are handed out, ahead or not |
| QuestProgress.HandleReplayFlowSceneProgress | server/internal/questflow/scene.go:134-141 | only the replay pointers and the version move, the replay head only forward |
| QuestProgress.HandleMainQuestSceneProgress | server/internal/questflow/scene.go:143-180 | a chain that has moved on first finalises the quest it left; then a played quest moves the progress pointers only, a background quest the story pointers, the head only forward |
| SideQuests.HandleEventQuestStart | server/internal/questflow/event_quest.go:11-37 | the quest is initialised, paid for and active with its deck, and the event pointers stand at its first scene if it has one; the story is untouched |
| SideQuests.HandleEventQuestFinish | server/internal/questflow/event_quest.go:39-65 | pays as a main victory does or refunds a retreat, clears the event pointers and the missions; a retreat leaves the quest row as the start left it |
| SideQuests.HandleEventQuestRestart | server/internal/questflow/event_quest.go:67-72 | restarts as a main quest does and points the event at the quest |
| SideQuests.HandleEventQuestSceneProgress | server/internal/questflow/event_quest.go:74-91 | the event head moves only forward, the scene's grants are handed out, a half-result scene clears the missions; an unknown scene changes nothing |
| SideQuests.HandleExtraQuestStart | server/internal/questflow/extra_quest.go:11-35 | as for events, but the battle-only flag stays as it was |
| SideQuests.HandleExtraQuestFinish | server/internal/questflow/extra_quest.go:37-61 | pays as a main victory does or refunds a retreat, clears the extra pointers and the missions |
| SideQuests.HandleExtraQuestRestart | server/internal/questflow/extra_quest.go:63-67 | restarts as a main quest does and points the extra progress at the quest |
| SideQuests.HandleExtraQuestSceneProgress | server/internal/questflow/extra_quest.go:69-86 | the extra head moves only forward, with the same scene effects; an unknown scene changes nothing |
| SideQuests.HandleBigHuntQuestStart | server/internal/questflow/bighunt_quest.go:10-28 | the quest is initialised, paid for and active with its deck, and no pointer of any other kind of quest moves |
| SideQuests.HandleBigHuntQuestFinish | server/internal/questflow/bighunt_quest.go:30-50 | pays as a main victory does or refunds a retreat and clears the missions, touching no pointers |
| QuestRuns.StepStory | server/internal/questflow/quest.go:49-130 | every handler touches the story position only so: a start may take a snapshot of it, a main finish restores and drops it, nothing changes a snapshot held, and without one the head does not fall |
| QuestRuns.ReplayRestoresStory | server/internal/questflow/quest.go:235-249 | over any run from the start that takes a snapshot to the next main finish, scene, head, route, season, reached-last flag and cage are at the end as they were before it |
| QuestRuns.SnapshotHeld | server/internal/questflow/quest.go:117-130 | no run without a main finish changes a snapshot held |
| QuestRuns.CommittedHeadAdvances | server/internal/questflow/scene.go:22-46 | the committed head scene never moves backwards in scene order over any run |
| QuestRuns.ReplaysHoldSnapshots | server/internal/questflow/quest.go:81-87 | over any run the replay flow is on only while a snapshot is held |
| QuestRuns.StepPays | server/internal/questflow/quest.go:144-189 | which steps pay a first-clear package, to which quest, always for the first time, and that no other step touches a reward flag |
| QuestRuns.PackagesPaidOnce | server/internal/questflow/rewards.go:243-260 | over any run of all handlers a package was paid exactly once if its quest's flag is set and never otherwise, and flags stay set |
| QuestRuns.VictoryPays | server/internal/questflow/quest.go:144-166 | the reported first-clear list is the one granted, and only on the victory that sets the flag |
| QuestReports.FinishGrantsReport | server/internal/questflow/quest.go:191-210 | of any finish, main, event, extra or big hunt: it grants everything it reports if and only if nothing is reported, or the player did not retire and no uncleared mission of the quest carries a reward; it always grants exactly package, drops and replay rewards of a won quest and nothing of a lost one |
| QuestReports.MissionListsExactly | server/internal/questflow/rewards.go:74-117 | a finish reports no mission rewards if and only if no uncleared mission of the quest carries one |
| QuestReports.MissionRewardUngranted | server/internal/questflow/quest.go:144-166 | an input: a won hunt of a quest with one rewarded mission reports the reward and grants nothing |
| QuestReports.MissionRewardsOnce | server/internal/questflow/rewards.go:74-117 | mission rewards are reported at most once between restarts: after any finish of a quest no run without a restart of it leads to an outcome that lists them again |
| QuestReports.FinishSettles | server/internal/questflow/quest.go:218-228 | a finish leaves the quest active if and only if the player retired from an active one and, for a main quest, it was never cleared |
| QuestRows.FinishWritesRow | server/internal/questflow/quest.go:191-233 | of any finish, on the old row alone: won, the quest is cleared once more, now, paid and not battle-only; given up, the row is as before, but a main quest active again after a clear is cleared; no other quest's row changes |
| QuestRows.StartWritesRow | server/internal/questflow/quest.go:49-115 | a main start makes a quest cleared before, or one that counts and is not in the background, active as of now with the deck and flag sent; any other is cleared on the spot with both counters at one; no other row changes |
| QuestRows.SideStartWritesRow | server/internal/questflow/event_quest.go:11-37 | an event, extra or big hunt start makes the quest active with the deck sent, the flag only for events; no other row changes |
| QuestRows.StartCosts | server/internal/questflow/quest.go:55-58 | any start with a cost leaves the stamina regenerated at one per 180 ms up to the level's maximum less a thousand per unit, none at the least; one without a cost leaves stamina and clock alone |
| QuestRows.RetreatRefunds | server/internal/questflow/quest.go:212-216 | a retreat gives back a thousand per unit but one, beyond the maximum if need be, and nothing after an annihilation |
| QuestRows.ReportsPackage | server/internal/questflow/rewards.go:32-66 | the first-clear list reported is that of the first switch row, by index, whose condition quest is cleared, and of the quest's own group when there is none |
| QuestRows.WinGrantsPackage | server/internal/questflow/rewards.go:243-260 | the first victory grants that package, then drops and replay rewards |
| QuestRows.ChainWritesRow | server/internal/questflow/quest.go:168-189 | a chain's scene clears the quest left behind once more, in its row and no other, and grants the package so found unless it was paid |
| QuestRows.RestartWritesRow | server/internal/questflow/quest.go:301-315 | a restart makes its quest active as of now and touches no other row |
| QuestRows.SkipWritesRow | server/internal/questflow/quest.go:290-295 | a skip adds its count to both counters and leaves state, flag and every other row |
| QuestRows.OtherScenesWriteNoRow | server/internal/questflow/scene.go:70-94 | main flow, replay, event and extra scenes write no quest row |
| QuestRows.FinishWritesMissions | server/internal/questflow/quest.go:30-39 | every finish writes the quest's mission rows as cleared now with progress one, and no other mission |
| QuestRows.RestartWritesMissions | server/internal/questflow/quest.go:316-325 | a restart writes them blank, and no other mission |
| QuestMoves.AdvanceMovesOn | server/internal/questflow/scene.go:29-68 | the story moves to a scene exactly when it lies further on in scene order: scene, head, whether it is the chapter's last, the quest's route, that route's season, and the date of a first visit |
| QuestMoves.StartMoves | server/internal/questflow/quest.go:49-142 | which pointers a start sets: progress pointers, cage and side story of a menu pick, flow and replay pointers of a map replay, the snapshot of both, and the story only for an uncleared quest that is not fought |
| QuestMoves.FinishMoves | server/internal/questflow/quest.go:191-260 | a main finish empties the pointers and returns to the main flow; a held snapshot comes back field by field; without one only a won, fought quest outside a replay moves the story, to its last scene |
| QuestMoves.MainFlowSceneMoves | server/internal/questflow/scene.go:70-94 | a main flow scene moves the story so, leaves cage and side story, grants what the scene holds, and no other pointer moves |
| QuestMoves.ReplaySceneMoves | server/internal/questflow/scene.go:134-141 | a replay scene changes the replay pointers and the version, and nothing else of the user |
| QuestMoves.FoughtSceneMoves | server/internal/questflow/scene.go:143-180 | a scene of a fought quest moves its progress pointers and no other, and half-way clears its missions |
| QuestMoves.BackgroundSceneMoves | server/internal/questflow/scene.go:143-180 | a scene of any other quest moves scene, head and last-scene mark of the story, but neither route nor season |
| QuestMoves.SideStartMoves | server/internal/questflow/event_quest.go:11-37 | of the pointers only those of the event or extra quest started move, to its first scene if it has one |
| QuestMoves.SideFinishMoves | server/internal/questflow/event_quest.go:39-65 | of the pointers only those of the event or extra quest finished are emptied |
| QuestMoves.RestartMoves | server/internal/questflow/quest.go:301-326 | a restart seeds the flow only for a fought quest and only when none is set, and points event or extra progress at its quest |
| QuestMoves.SideSceneMoves | server/internal/questflow/event_quest.go:74-91 | an event or extra scene moves its own pointers, grants what it holds, and half-way clears the missions |
| QuestGains.ExpGains | server/internal/questflow/rewards.go:140-241 | who gains what: the player always, with a refill on a new level that has a maximum; the costumes worn by the three members of the quest's deck and their characters unless the deck is lent; every other row as before |
| QuestGains.FinishEarns | server/internal/questflow/rewards.go:243-260 | a finish gives that experience and the quest's gold on the first victory, and on no other finish |
| QuestGains.SkipEarns | server/internal/questflow/quest.go:262-299 | a skip pays its count in stamina and tickets, neither below none, and then earns experience, gold and drops that many times in turn |
| QuestGains.GoldTimes | server/internal/questflow/quest.go:262-299 | over n such earnings the gold rises by n times the quest's and no other item changes |
| QuestOutcome.ReportLists | server/internal/questflow/rewards.go:43-138 | the lists of a report entry by entry: known drops in pickup order, replay rewards in the replay flow, rewards of open missions, and completion rewards and big wins only when the quest has other missions |
| QuestUpkeep.MissionsStayClear | server/internal/questflow/quest.go:30-39 | over any run without a restart of its quest a clear mission stays clear |
| QuestUpkeep.RestartTakesMarks | server/internal/questflow/quest.go:316-325 | a restart takes the marks off its own quest's missions and no others |
| QuestUpkeep.CostumesStayWithin | server/internal/questflow/rewards.go:179-206 | over any run of all handlers costumes within their limit-break level caps stay within them |
| QuestRuns.FinalizedKeeps | server/internal/questflow/quest.go:168-189 | finalising a chain's previous quest leaves the story position alone and pays at most its own package |
| Weighted.PickCumulative | server/internal/gacha/draw.go:135-145 | the loop finds the row whose share of the weights the roll falls in, for every roll below the total |
| Weighted.PickSubtractive | server/internal/service/costume.go:474-486 | so does the loop that counts the roll down |
| Weighted.OneRow | server/internal/gacha/draw.go:135-145 | there is only one such row, so both loops agree on every roll |
| Weighted.EveryRollSelects | server/internal/gacha/draw.go:135-145 | every roll below the total selects a row |
| Weighted.ExactOdds | server/internal/gacha/draw.go:135-145 | exactly Weight(i) of the rolls select row i |
| Rates.AdjustRates | server/internal/gacha/draw.go:103-133 | the two loops compute the boosted table in a copy; the base table is unchanged |
| Rates.BoostConservesTotal | server/internal/gacha/draw.go:103-133 | a boost never lowers the total, and raises it by at most one per lesser tier if and only if the extra weight does not exceed the lesser tiers' weight |
| Rates.BoostByTier | server/internal/gacha/draw.go:103-133 | top tiers gain exactly their truncated extra, lesser tiers never gain, every weight stays at least 1 |
| Rates.PremiumBoosts | server/internal/gacha/draw.go:24-30 | the two boosted premium tables, row by row |
| Premium.DrawPremium | server/internal/gacha/draw.go:32-50 | exactly count items, each slot filled as its tier, the featured rows, the pools and the guarantee allow |
| Premium.RollOne | server/internal/gacha/draw.go:135-151 | an item of a tier that has weight, featured or from the tier's pool |
| Premium.TryFeaturedRateUp | server/internal/gacha/draw.go:153-173 | takes a featured row of the tier's own kind and rarity if and only if there is one and the roll is one of the 35 in 100 |
| Premium.RollAtMinRarity | server/internal/gacha/draw.go:175-188 | a draw among the tiers at or above the minimum, from the weapon pool when they have no weight |
| Premium.PickFromPool | server/internal/gacha/draw.go:190-223 | a row of the pool, of its stand-in when empty, or the phantom item of that rarity |
| Premium.GuaranteeExactly | server/internal/gacha/draw.go:32-50 | a guarantee slot can come out below the minimum if and only if some pool it draws again from is empty and its stand-in pool holds rows below the minimum |
| Premium.GuaranteeKept | server/internal/gacha/draw.go:32-50 | otherwise each of the last fixedCount of exactly count items is at least of the minimum rarity, for all random outcomes |
| Premium.PremiumGuarantee | server/internal/gacha/draw.go:24-30 | the same condition read off the premium table, boosted or not: lowest-rarity weapons on sale and a higher weapon pool empty |
| Premium.PicksAre | server/internal/gacha/draw.go:190-223 | in figures, what a pick can be: a row of the pool, else of rarity 40 for costumes or 20 for weapons, else the weapon without an id; weapons lose the character |
| Premium.OrdinarySlots | server/internal/gacha/draw.go:135-173 | what an ordinary slot can be: for some tier with weight, a featured row of its kind and rarity or a pick from its pool |
| Premium.GuaranteeSlots | server/internal/gacha/draw.go:32-50 | what a guarantee slot can be: an ordinary draw that reaches the minimum, or after one that does not a draw among the tiers that do, or from the weapon pool when none of those has weight |
| Box.DrawBox | server/internal/gacha/draw.go:52-75 | draws min(count, copies left) items without replacement and raises each row's count by its picks |
| Box.BuildBoxPool | server/internal/gacha/handler.go:247-271 | the first 50 materials, ten copies each, and the stand-in item when there are fewer than 5 |
| Box.Banner.DrawFromBox | server/internal/gacha/handler.go:228-245 | draws from the box with the banner's counts loaded and raises the count of each id drawn |
| Box.Banner.ResetBox | server/internal/gacha/handler.go:139-148 | empties the counts and moves to the next box |
| Box.Banner.CountDraws | server/internal/gacha/handler.go:90-107 | a step-up draw moves one step on or around to step 1 of the next loop; medals stop at 9999 while the bonus reported does not |
| Box.CountsAreDraws | server/internal/gacha/handler.go:228-245 | over any run of draws and resets each id's stored count is the number of it drawn since the last reset |
| Box.CountsStayInBox | server/internal/gacha/handler.go:228-245 | with distinct ids no count ever passes its maximum |
| Box.NeverOverdrawnExactly | server/internal/gacha/handler.go:228-271 | counts stay within their maxima on every run if and only if no id is in the pool twice |
| Box.SharedIdOverdraws | server/internal/gacha/handler.go:228-271 | an id in two rows can be drawn as often as both allow together, from a new box |
| Box.BoxConserved | server/internal/gacha/handler.go:228-245 | with distinct ids, copies left and copies drawn since the last reset make up the full box |
| Box.PicksTake | server/internal/gacha/draw.go:52-75 | every pick takes exactly one copy out of the box |
| Box.BannerPoolExactly | server/internal/gacha/handler.go:247-271 | the banner's pool has distinct ids if and only if the first 50 materials do and, with fewer than 5, none is the stand-in |
| Box.BannerNeverOverdrawnExactly | server/internal/gacha/handler.go:228-271 | a banner's counts stay within their maxima on every run if and only if its materials are so |
| Box.StandInOverdraws | server/internal/gacha/handler.go:261-268 | an input: the stand-in item as the only material can be drawn thirty times, where its rows allow ten and twenty |
| Box.StepsCycle | server/internal/gacha/handler.go:90-96 | the n-th step-up draw is at step (n - 1) mod max + 1 with (n - 1) div max loops completed |
| Box.MedalsCapTotal | server/internal/gacha/handler.go:98-105 | capping medals after every draw is capping the total once |
| DailyDraw.RewardGacha.HandleRewardDraw | server/internal/gacha/handler.go:150-197 | the clamped number of material rows, none when there are no materials although the count rises, and no change at all when the limit is reached |
| DailyDraw.DayDrawsUpToLimit | server/internal/gacha/handler.go:150-197 | over a day the count rises by exactly what was asked for, up to what the limit leaves, however it is split into calls |
| DailyDraw.DayItemsExactly | server/internal/gacha/handler.go:165-197 | the items handed out are as many if and only if there are materials to draw or nothing was due |
| Pruning.FilterInPlace | server/internal/masterdata/gacha_pool.go:260-268 | the slice filtered over its own backing array holds exactly the paired rows in order |
| Pruning.PruneUnpairedCostumes | server/internal/masterdata/gacha_pool.go:252-270 | unpaired costumes leave the index and every rarity's slice, and no slice disturbs another |
| Pruning.PairedKeeps | server/internal/masterdata/gacha_pool.go:260-268 | exactly the rows of paired costumes are kept, as often as they were there |
| Pruning.GenerateBonusItems | server/internal/gacha/handler.go:308-329 | exactly the costumes drawn whose weapon is known draw it along |
| Pruning.PrunedPoolServes | server/internal/masterdata/gacha_pool.go:252-270 | pruning keeps rows filed by rarity; a costume from a pruned pool has a weapon, and draws it along if and only if the catalog knows the weapon |
| Lottery.LotteryState.DrawLotteryEffect | server/internal/service/costume.go:442-506 | pays what it can, draws a row by weight, and sets a first effect or keeps the result aside |
| Lottery.LotteryState.ConfirmLotteryEffect | server/internal/service/costume.go:524-548 | an accepted result replaces the slot's effect, a rejected one is dropped |
| Lottery.PaysOrEmpties | server/internal/service/costume.go:463-472 | of each material exactly what all rows ask for is taken, or all there is; never below zero |
| Lottery.EffectsChangeByConsent | server/internal/service/costume.go:488-548 | over any run an effect once drawn is never lost and changes only where the player accepts a result drawn for that slot |
| Lottery.DrawWrites | server/internal/service/costume.go:442-506 | a draw takes the gold of one draw and the materials, and puts the number of a row with weight into an empty slot, or aside |
| Lottery.ConfirmWrites | server/internal/service/costume.go:524-548 | an answer drops what was kept aside, for that costume only, and puts it into its own slot exactly when accepted |
| BigHunt.ResolveActiveGroup | server/internal/masterdata/bighunt.go:70-81 | the group of the latest period begun, of the earliest before any has begun, 0 without periods |
| BigHunt.ResolveGradeIconId | server/internal/masterdata/bighunt.go:96-111 | the icon of the highest step the score reaches, 0 below the first and for unknown bosses |
| BigHunt.CollectNewRewards | server/internal/masterdata/bighunt.go:113-122 | the rewards of the thresholds above the old maximum up to the new one, in order |
| BigHunt.CollectTelescopes | server/internal/masterdata/bighunt.go:113-122 | collecting up to a middle score and on from it collects the same list |
| BigHunt.ScoreGrows | server/internal/service/quest_bighunt.go:110-130 | more damage or a longer combo never scores less |
| BigHunt.HuntState.FinishBigHuntQuest | server/internal/service/quest_bighunt.go:102-202 | the score info with its grade icon, the three maxima and the rewards of a counted hunt, whose battle is then dropped; a retired or dry one only ends the progress and leaves the battle detail for the next finish |
| BigHunt.HuntState.SaveBigHuntBattleInfo | server/internal/service/quest_bighunt.go:275-304 | the binary is replaced; a detail sent is stored with the damage of all costumes reported added up, and without one the old detail stays |
| BigHunt.BestIsGreatest | server/internal/service/quest_bighunt.go:132-142 | over any run the stored maximum of a boss is the greatest counted score |
| BigHunt.ScoreRewardsTelescope | server/internal/service/quest_bighunt.go:183-197 | for a boss with one reward group, over any run of finished, retired and dry hunts, the rewards paid are those of the thresholds between the first maximum and the last, each once and in order |
| BigHunt.AllDuePaid | server/internal/service/quest_bighunt.go:183-197 | from a new user on, that is every threshold up to the best counted score |
| BigHunt.MarksArePaid | server/internal/service/quest_bighunt.go:183-197 | whatever group each hunt draws on, the rewards paid over a run are those of the thresholds each counted hunt carried the maximum across in its own group |
| BigHunt.ThresholdPaidExactly | server/internal/service/quest_bighunt.go:183-197 | a threshold between the first maximum and the last is paid, and once, if and only if its group was in force at the one hunt that carried the maximum across its score |
| BigHunt.NotCrossedUnpaid | server/internal/service/quest_bighunt.go:183-197 | a threshold not reached, or reached before the run, is never paid |
| BigHunt.OneCrossing | server/internal/service/quest_bighunt.go:132-142 | each score between the first maximum and the last is crossed by exactly one event, a counted hunt |
| BigHunt.SchedulesStayBelow | server/internal/service/quest_bighunt.go:144-155 | no schedule maximum of a boss is ever above its all-time maximum |
| BigHunt.ScoreFigures | server/internal/service/quest_bighunt.go:110-130 | the score in figures: whole points of the damage times one and a half plus difficulty and combo permils, the combo's 100, 200 and 300 from 20, 50 and 100 on |
| BigHunt.HuntWrites | server/internal/service/quest_bighunt.go:107-202 | what a finish writes: the three records each at one key and only when beaten, and the battle dropped; a retired or dry one only the progress |
| BigHunt.HuntTold | server/internal/service/quest_bighunt.go:110-181 | what a counted hunt is told, part by part |
| Evolution.BuildEvolution | server/internal/masterdata/weapon.go:228-242 | position and successor maps built from the grouped, sorted rows, in any map order and with any order of equal rows; a chain visited later, and a later row, wins |
| Evolution.MapsAreChains | server/internal/masterdata/weapon.go:228-242 | with one row per weapon they say exactly where a weapon stands in its chain and which comes next |
| Evolution.EvolutionClimbs | server/internal/masterdata/weapon.go:228-242 | each evolution raises the position by one, so no chain comes back to a weapon |
| EvolutionWalk.EvolveToEnd | server/cmd/lunar-base-grant/mass_upgrades.go:171-181 | from any weapon whose walk ends at all, the unbounded loop ends, at the one weapon where the walk does |
| EvolutionWalk.WalkEndsAtChainEnd | server/cmd/lunar-base-grant/mass_upgrades.go:171-181 | with one row per weapon every walk ends, and one that starts in a chain ends at the chain's last weapon |
| EvolutionWalk.NextIsLatest | server/internal/masterdata/weapon.go:236-241 | for any table: a weapon has a successor if and only if some row gives it one, and the row visited last says which |
| EvolutionWalk.WalksEndExactly | server/cmd/lunar-base-grant/mass_upgrades.go:171-181 | for any table and any order of visiting its chains: every walk ends if and only if no chain's last weapon comes back to itself |
| EvolutionWalk.TableWalksEndExactly | server/cmd/lunar-base-grant/mass_upgrades.go:171-181 | for a table whose weapons are in one group each, rows repeated or not: every walk of every outcome of loading it ends if and only if no group's last row names a weapon another row of the group names |
| EvolutionWalk.FallingRankEnds | server/cmd/lunar-base-grant/mass_upgrades.go:171-181 | when the weapons can be ranked so that every chain falls, every walk of every outcome ends |
| EvolutionWalk.CrossedChainsEnd | server/cmd/lunar-base-grant/mass_upgrades.go:171-181 | such a ranking is not needed: two chains that run against each other end, whichever is visited last |
| EvolutionWalk.RepeatedWeaponCycles | server/cmd/lunar-base-grant/mass_upgrades.go:171-181 | an input: with a weapon listed again at the end of its group, that weapon and the one between evolve into each other, and neither walk ever ends |
| Evolution.BuildEvolvedWeaponSet | server/internal/masterdata/gacha_pool.go:387-402 | the weapons at a position above 0 in chains the pool groups and sorts for itself |
| Evolution.SortIsUnique | server/internal/masterdata/gacha_pool.go:394-396 | with distinct orders two sorts of a group agree |
| Evolution.EvolvedAreAbove | server/internal/masterdata/gacha_pool.go:387-402 | the pool's evolved set is exactly the weapons the catalog puts above position 0 |
| Evolution.BuildLeveling | server/internal/masterdata/weapon.go:349-370 | members of rooted chains get the root's id, every other known weapon its own |
| Evolution.LevelingIsShared | server/internal/masterdata/weapon.go:349-370 | all members of a chain whose first weapon is known share its leveling id; members of other chains keep their own |
| Evolution.EnhanceToCap | server/cmd/lunar-base-grant/mass_upgrades.go:217-242 | on a sorted table the weapon ends exactly on its cap, or on the table's last level |
| Parts.PartsState.Enhance | server/internal/service/parts.go:96-154 | refusals change nothing; otherwise the gold is paid and the level rises, or not, within the success rate |
| Parts.PartsState.GrantSubStatuses | server/internal/service/parts.go:164-205 | exactly the empty slots due at the level are filled from the pool, and one is missed only when the pool has nothing, or something unknown, to draw |
| Parts.PartsState.Sell | server/internal/service/parts.go:37-77 | exactly the sellable parts named go, with their sub-status rows, each paid once however often named |
| Parts.SlotsTrackLevel | server/internal/service/parts.go:62-69 | over any run of enhance successes, failures, sales and new parts, slot n of an owned part exists if and only if its level has reached the slot's unlock level, levels never pass 15, and no row belongs to a part sold |
| Parts.SlotsTrackExactly | server/internal/service/parts.go:164-205 | with slots unlocking above level 1, slots track levels on every run from an empty inventory if and only if no slot unlocks at a level reachable with positive success rates while its pool is empty or holds an unknown entry |
| Parts.EnhanceWithoutSlots | server/internal/service/parts.go:164-205 | the failing run: a new part is enhanced to such a level and every slot is missed |
| Parts.EnhanceKeepsSlots | server/internal/service/parts.go:164-205 | a success fills every slot the new level reaches |
| Parts.MissedSlotStaysEmpty | server/internal/service/parts.go:171-179 | a slot missed at its level is never filled later |
| Parts.EnhanceWrites | server/internal/service/parts.go:96-154 | an enhance call below level 15 takes the price listed for the level and stamps the part; a success adds one level and needs a chance above none, a failure one below certain |
| Parts.EnhanceDraws | server/internal/service/parts.go:164-205 | the row a success writes: a slot due at the new level, a known status of the part's pool, its value that of the level |
| Parts.SellOne | server/internal/service/parts.go:37-77 | selling one part: gone with its rows for the price of its rarity at its level, if there, unprotected and priced |
| Parts.SellTwice | server/internal/service/parts.go:37-77 | selling two lists in one call is selling them in two if and only if their totals are not of opposite signs, as when no price is negative |
| MapKey.MarshalKey | server/internal/store/mapkey.go:9-16 | the loop writes the values in decimal, joined by colons |
| MapKey.UnmarshalKey | server/internal/store/mapkey.go:18-32 | the loop reads the parts as values, and refuses a wrong number of parts or one that is no int64 |
| MapKey.KeyRoundTrip | server/internal/store/mapkey.go:9-32 | reading a key with its own arity gives the values back, with any other it is refused |
| MapKey.KeysDiffer | server/internal/store/mapkey.go:9-16 | no two lists of int64 values share a key, across all arities |
| MapKey.KeyTextRoundTrip | server/internal/store/mapkey.go:18-32 | a text that reads as a key is what its values are written as if and only if each part is canonical decimal |
| MapKey.KeyAsWritten | server/internal/store/mapkey.go:9-16 | a key as it is written, sign, zero and colons included |

## Left out

- Machine integers: int32 and int64 quantities are unbounded integers, except the int64 wrap of ten-byte varints. In particular the sums of a parser offset and a length near 2^63 do not wrap here.
- Floating point: rate multipliers are reals; the ones in use are 1.0, 1.5 and 2.0.
- PossessionGranter.GrantFull and its kin: what it does to items, costumes, weapons and parts is not modelled. A grant is an entry in the trail, so gold and items here are only what the handlers write themselves.
- QuestRewards.ApplyQuestVictory: leaves out the weapon-story unlocks of a first victory and their ids in the outcome; they touch weapon stories only, which no part of this model reads.
- Tutorials, which scene progress also advances, and the SetRoute call and other services that write the story route: not part of the runs.
- File reading, path candidates, path normalisation (appendUniqueCandidate and around it) and JSON: a file read by the loaders is an arbitrary parsed answer or a failure.
- gRPC handlers, sessions, SQLite, logging and the clock: handler arguments and clock reads are arbitrary parameters.
- Panics: unknown quests, scenes and condition quests, empty lists of scenes, and tables without weight are preconditions.
- EvolutionWalk.EvolveToEnd: is asked only for weapons whose walk ends, since the loop has no other way out; on tables with a weapon in several groups the exact condition, EvolutionWalk.WalksEndExactly, is stated for each order in which Go may visit the groups and looks at the chain ends only.
- Premium.DrawPremium: says which outcomes are possible, not how likely each is; the odds of a tier are Weighted.ExactOdds and those of a featured row Premium.TryFeaturedRateUp.
- Lottery.LotteryState.DrawLotteryEffect: the other lottery calls (unlocking a slot, the effect tables) are not modelled.
- Box gacha items carry no target flag and no stack count, which the draw only copies.
- Numerical functions of the master data are arbitrary functions or tables of their values.
- The challenge counters and deck numbers of the big hunt calls.
- The rest of HandleDraw (price, duplicate exchange), rarity fallback ids, awakening and the skill and ability tables of mass upgrades: easy members.
