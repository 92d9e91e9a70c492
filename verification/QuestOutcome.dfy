/** What the lists of a finish's report hold, entry by entry. */
module QuestOutcome {
  import opened Store
  import opened Masterdata
  import opened QuestFlow

  /** What f gives for each id, in order. */
  function Collected<T>(ids: seq<int>, f: int -> seq<T>): seq<T> {
    if ids == [] then [] else f(ids[0]) + Collected(ids[1..], f)
  }

  lemma {:induction false} CollectedSnoc<T>(ids: seq<int>, f: int -> seq<T>)
    requires ids != []
    ensures Collected(ids, f) == Collected(ids[..|ids| - 1], f) + f(ids[|ids| - 1])
  {
    var n := |ids| - 1;
    if n == 0 {
      assert ids[1..] == [] && ids[..0] == [];
      assert Collected(ids, f) == f(ids[0]) + [];
    } else {
      CollectedSnoc(ids[1..], f);
      assert ids[1..][..n - 1] == ids[..n][1..];
    }
  }

  function DropAt(c: Catalog): int -> seq<Grant> {
    id => if id in c.battleDrops then [c.battleDrops[id]] else []
  }

  /** The mission has not been cleared in the quest. */
  predicate Open(u: User, q: int, id: int) {
    (q, id) in u.missions ==> !u.missions[(q, id)].clear
  }

  function MissionRewardAt(c: Catalog, u: User, q: int, complete: bool): int -> seq<Grant> {
    id =>
      if id in c.missions && c.missions[id].isComplete == complete && Open(u, q, id)
      then GetOr(c.missionRewards, c.missions[id].rewardId, []) else []
  }

  function WinAt(c: Catalog, u: User, q: int): int -> seq<int> {
    id => if id in c.missions && c.missions[id].isComplete && Open(u, q, id) then [id] else []
  }

  lemma {:induction false} DropsCollected(c: Catalog, ids: seq<int>)
    ensures DropsOf(c, ids) == Collected(ids, DropAt(c))
  {
    if ids != [] {
      DropsCollected(c, ids[..|ids| - 1]);
      CollectedSnoc(ids, DropAt(c));
    }
  }

  lemma {:induction false} RegularCollected(c: Catalog, u: User, q: int, ids: seq<int>)
    ensures RegularRewards(c, u, q, ids) == Collected(ids, MissionRewardAt(c, u, q, false))
  {
    if ids != [] {
      RegularCollected(c, u, q, ids[..|ids| - 1]);
      CollectedSnoc(ids, MissionRewardAt(c, u, q, false));
    }
  }

  lemma {:induction false} CompleteCollected(c: Catalog, u: User, q: int, ids: seq<int>)
    ensures CompleteRewards(c, u, q, ids) == Collected(ids, MissionRewardAt(c, u, q, true))
  {
    if ids != [] {
      CompleteCollected(c, u, q, ids[..|ids| - 1]);
      CollectedSnoc(ids, MissionRewardAt(c, u, q, true));
    }
  }

  lemma {:induction false} WinsCollected(c: Catalog, u: User, q: int, ids: seq<int>)
    ensures BigWins(c, u, q, ids) == Collected(ids, WinAt(c, u, q))
  {
    if ids != [] {
      WinsCollected(c, u, q, ids[..|ids| - 1]);
      CollectedSnoc(ids, WinAt(c, u, q));
    }
  }

  lemma {:induction false} RegularSomewhere(c: Catalog, ids: seq<int>)
    ensures AnyRegular(c, ids) <==> exists id :: id in ids && id in c.missions && !c.missions[id].isComplete
  {
    if ids != [] {
      var n := |ids| - 1;
      RegularSomewhere(c, ids[..n]);
      assert ids == ids[..n] + [ids[n]];
    }
  }

  /** Drops are the known ones of the pickup group; replay rewards come with the replay flow; missions not cleared yet
      give their rewards, those for completing the others only when the quest has others. */
  lemma ReportLists(c: Catalog, u: User, q: int)
    requires CanEvaluate(c, u, q)
    ensures var o, def, ids := Evaluate(c, u, q), c.quests[q], GetOr(c.missionIds, q, []);
            var regular := exists id :: id in ids && id in c.missions && !c.missions[id].isComplete;
            && o.drops == (if def.pickupGroup == 0 then [] else Collected(GetOr(c.pickups, def.pickupGroup, []), DropAt(c)))
            && o.replay == (if u.main.flow == ReplayFlow && def.replayGroup > 0 then GetOr(c.replayRewards, def.replayGroup, []) else [])
            && o.missionClear == Collected(ids, MissionRewardAt(c, u, q, false))
            && o.missionComplete == (if regular then Collected(ids, MissionRewardAt(c, u, q, true)) else [])
            && o.bigWins == (if regular then Collected(ids, WinAt(c, u, q)) else [])
            && o.isBigWin == (o.bigWins != [])
  {
    hide GroupKnown, FirstClear, DropsOf, RegularRewards, CompleteRewards, BigWins, AnyRegular, Collected;
    var ids := c.MissionIds(q);
    DropsCollected(c, GetOr(c.pickups, c.quests[q].pickupGroup, []));
    RegularCollected(c, u, q, ids);
    CompleteCollected(c, u, q, ids);
    WinsCollected(c, u, q, ids);
    RegularSomewhere(c, ids);
  }
}
