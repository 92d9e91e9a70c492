/** Big hunt scores and score rewards: masterdata/bighunt.go and FinishBigHuntQuest of service/quest_bighunt.go.
    The quest engine's own part of a finish is SideQuests.HandleBigHuntQuestFinish. */
module BigHunt {
  import opened Wrappers
  import opened Store

  datatype Threshold = Threshold(score: int, rewards: int)
  datatype GradeStep = GradeStep(score: int, icon: int)
  datatype Period = Period(start: int, group: int)
  datatype Boss = Boss(attribute: int, grades: int)
  datatype BossQuest = BossQuest(boss: int, schedule: int)
  datatype Record = Record(score: int, at: int)

  const NO_RECORD := Record(0, 0)

  datatype HuntCatalog = HuntCatalog(
    coefficientOf: map<int, int>,
    coefficients: map<int, int>,
    bossQuests: map<int, BossQuest>,
    bosses: map<int, Boss>,
    grades: map<int, seq<GradeStep>>,
    activeSchedule: int,
    periods: map<int, seq<Period>>,
    thresholds: map<int, seq<Threshold>>,
    rewardItems: map<int, seq<Grant>>)
  {
    function Quest(id: int): BossQuest { GetOr(bossQuests, id, BossQuest(0, 0)) }
    function Attribute(boss: int): int { GetOr(bosses, boss, Boss(0, 0)).attribute }
    function Thresholds(group: int): seq<Threshold> { GetOr(thresholds, group, []) }
    function Items(rewards: int): seq<Grant> { GetOr(rewardItems, rewards, []) }
  }

  // ---- Resolving periods and grades ----

  /** Newest first, as the catalog is loaded. */
  predicate NewestFirst(ps: seq<Period>) {
    forall i, j :: 0 <= i < j < |ps| ==> ps[i].start >= ps[j].start
  }

  /** The reward group in force: that of the latest period begun, of the earliest one before any has begun, 0 when
      there are none. */
  method ResolveActiveGroup(ps: seq<Period>, now: int) returns (group: int)
    ensures group == ActiveGroup(ps, now)
    ensures NewestFirst(ps) ==> forall p :: p in ps && p.start <= now ==>
              exists q :: q in ps && q.group == group && p.start <= q.start <= now
    ensures ps != [] && (forall p :: p in ps ==> now < p.start) ==> group == ps[|ps| - 1].group
  {
    for i := 0 to |ps|
      invariant forall k :: 0 <= k < i ==> now < ps[k].start
      invariant ActiveGroup(ps, now) == if i < |ps| then ActiveGroup(ps[i..], now) else ActiveGroup(ps, now)
    {
      if now >= ps[i].start {
        assert ps[i] in ps;
        return ps[i].group;
      }
      assert ps[i..][1..] == ps[i + 1..];
    }
    if |ps| > 0 {
      LastGroup(ps, now);
      return ps[|ps| - 1].group;
    }
    return 0;
  }

  function ActiveGroup(ps: seq<Period>, now: int): int {
    if ps == [] then 0
    else if now >= ps[0].start || |ps| == 1 then ps[0].group
    else ActiveGroup(ps[1..], now)
  }

  lemma {:induction false} LastGroup(ps: seq<Period>, now: int)
    requires ps != [] && forall k :: 0 <= k < |ps| ==> now < ps[k].start
    ensures ActiveGroup(ps, now) == ps[|ps| - 1].group
  {
    if |ps| > 1 {
      LastGroup(ps[1..], now);
    }
  }

  predicate Rising(gs: seq<GradeStep>) {
    forall i, j :: 0 <= i < j < |gs| ==> gs[i].score <= gs[j].score
  }

  /** The first n steps are the ones the score reaches. */
  predicate Reaches(gs: seq<GradeStep>, score: int, n: nat) {
    n <= |gs| && (forall k :: 0 <= k < n ==> gs[k].score <= score) && (forall k :: n <= k < |gs| ==> score < gs[k].score)
  }

  /** The icon after the loop has got to step n with this icon. */
  function IconFrom(gs: seq<GradeStep>, score: int, n: nat, icon: int): int
    decreases |gs| - n
  {
    if n < |gs| && score >= gs[n].score then IconFrom(gs, score, n + 1, gs[n].icon) else icon
  }

  function GradeIcon(c: HuntCatalog, boss: int, score: int): int {
    if boss in c.bosses then IconFrom(GetOr(c.grades, c.bosses[boss].grades, []), score, 0, 0) else 0
  }

  /** The icon of the highest step the score reaches, with steps sorted as they are loaded; 0 below the first step or
      for an unknown boss. */
  method ResolveGradeIconId(c: HuntCatalog, boss: int, score: int) returns (icon: int)
    ensures icon == GradeIcon(c, boss, score)
    ensures boss !in c.bosses ==> icon == 0
    ensures boss in c.bosses && Rising(GetOr(c.grades, c.bosses[boss].grades, [])) ==>
      var gs := GetOr(c.grades, c.bosses[boss].grades, []);
      exists n :: Reaches(gs, score, n) && icon == if n == 0 then 0 else gs[n - 1].icon
  {
    icon := 0;
    if boss !in c.bosses {
      return;
    }
    var gs := GetOr(c.grades, c.bosses[boss].grades, []);
    var n := 0;
    while n < |gs|
      invariant n <= |gs| && icon == if n == 0 then 0 else gs[n - 1].icon
      invariant forall k :: 0 <= k < n ==> gs[k].score <= score
      invariant GradeIcon(c, boss, score) == IconFrom(gs, score, n, icon)
    {
      if score >= gs[n].score {
        icon := gs[n].icon;
      } else {
        break;
      }
      n := n + 1;
    }
    assert Rising(gs) ==> Reaches(gs, score, n);
  }

  // ---- Rewards between two scores ----

  function CollectFrom(c: HuntCatalog, ts: seq<Threshold>, lo: int, hi: int): seq<Grant> {
    if ts == [] then []
    else
      var n := |ts| - 1;
      CollectFrom(c, ts[..n], lo, hi) + if lo < ts[n].score <= hi then c.Items(ts[n].rewards) else []
  }

  /** The rewards of the thresholds above lo up to hi, in order. */
  function Collect(c: HuntCatalog, group: int, lo: int, hi: int): seq<Grant> {
    CollectFrom(c, c.Thresholds(group), lo, hi)
  }

  method CollectNewRewards(c: HuntCatalog, group: int, oldMax: int, newMax: int) returns (items: seq<Grant>)
    ensures items == Collect(c, group, oldMax, newMax)
  {
    var ts := c.Thresholds(group);
    items := [];
    for i := 0 to |ts|
      invariant items == CollectFrom(c, ts[..i], oldMax, newMax)
    {
      assert ts[..i + 1][..i] == ts[..i];
      if ts[i].score > oldMax && ts[i].score <= newMax {
        items := items + c.Items(ts[i].rewards);
      }
    }
    assert ts[..|ts|] == ts;
  }

  predicate Sorted(ts: seq<Threshold>) {
    forall i, j :: 0 <= i < j < |ts| ==> ts[i].score <= ts[j].score
  }

  lemma {:induction false} CollectNothing(c: HuntCatalog, ts: seq<Threshold>, lo: int, hi: int)
    requires hi <= lo || forall t :: t in ts ==> t.score <= lo
    ensures CollectFrom(c, ts, lo, hi) == []
  {
    if ts != [] {
      var n := |ts| - 1;
      assert ts[n] in ts;
      CollectNothing(c, ts[..n], lo, hi);
    }
  }

  /** Collecting up to a middle score and on from it collects the same, in the same order. */
  lemma {:induction false} CollectTelescopes(c: HuntCatalog, ts: seq<Threshold>, lo: int, mid: int, hi: int)
    requires Sorted(ts) && lo <= mid <= hi
    ensures CollectFrom(c, ts, lo, mid) + CollectFrom(c, ts, mid, hi) == CollectFrom(c, ts, lo, hi)
  {
    if ts != [] {
      var n := |ts| - 1;
      CollectTelescopes(c, ts[..n], lo, mid, hi);
      if ts[n].score <= mid {
        CollectNothing(c, ts[..n], mid, hi);
      }
    }
  }

  // ---- A finished hunt ----

  function ComboBonus(combo: int): int {
    if combo >= 100 then 300 else if combo >= 50 then 200 else if combo >= 20 then 100 else 0
  }

  function Difficulty(c: HuntCatalog, quest: int): int {
    GetOr(c.coefficients, GetOr(c.coefficientOf, quest, 0), 0)
  }

  function Score(damage: int, difficulty: int, combo: int): int {
    Quotient(damage * (1000 + difficulty + 500 + ComboBonus(combo)), 1000)
  }

  /** More damage or a longer combo never scores less. */
  lemma ScoreGrows(damage: int, more: int, difficulty: int, combo: int, longer: int)
    requires 0 <= damage <= more && combo <= longer && difficulty >= -1500
    ensures Score(damage, difficulty, combo) <= Score(more, difficulty, longer)
  {
    var a, b := 1500 + difficulty + ComboBonus(combo), 1500 + difficulty + ComboBonus(longer);
    assert 0 <= a <= b;
    Grows(damage, more, a);
    Grows(a, b, more);
    assert 0 <= damage * a <= more * a <= more * b;
  }

  lemma Grows(x: int, y: int, z: int)
    requires 0 <= x <= y && z >= 0
    ensures 0 <= x * z <= y * z
  {
  }

  /** The score in figures: the damage times 1.5, plus the difficulty's and the combo's permils, whole points only. A
      combo counts 100 permil from 20 on, 200 from 50 and 300 from 100. */
  lemma ScoreFigures(damage: int, difficulty: int, combo: int)
    requires damage >= 0 && difficulty >= -1500
    ensures var bonus := if combo < 20 then 0 else if combo < 50 then 100 else if combo < 100 then 200 else 300;
            var s := Score(damage, difficulty, combo);
            1000 * s <= damage * (1500 + difficulty + bonus) < 1000 * (s + 1)
  {
    var bonus := if combo < 20 then 0 else if combo < 50 then 100 else if combo < 100 then 200 else 300;
    assert ComboBonus(combo) == bonus;
    Grows(0, damage, 1500 + difficulty + bonus);
  }

  datatype Progress = Progress(bossQuest: int, quest: int, scene: int, dryRun: bool, version: int)

  datatype Detail = Detail(deckType: int, deckNumber: int, knockDowns: int, combo: int, damage: int)

  const NO_DETAIL := Detail(0, 0, 0, 0, 0)

  /** The big hunt fields of a user. paid is the trail of score rewards, boss by boss. */
  datatype Hunts = Hunts(
    best: map<int, Record>, scheduled: map<(int, int), Record>, weekly: map<(int, int), Record>,
    progress: Progress, binary: seq<int>, detail: Detail, paid: map<int, seq<Grant>>)
  {
    function Best(boss: int): int { GetOr(best, boss, NO_RECORD).score }
    function Scheduled(schedule: int, boss: int): int { GetOr(scheduled, (schedule, boss), NO_RECORD).score }
    function Paid(boss: int): seq<Grant> { GetOr(paid, boss, []) }
  }

  datatype Finish = Finish(bossQuest: int, quest: int, retired: bool, now: int, week: int)

  function Raise<K>(m: map<K, Record>, k: K, score: int, now: int): map<K, Record> {
    if score > GetOr(m, k, NO_RECORD).score then m[k := Record(score, now)] else m
  }

  function GroupOf(c: HuntCatalog, f: Finish): int {
    ActiveGroup(GetOr(c.periods, c.Quest(f.bossQuest).schedule, []), f.now)
  }

  predicate Counts(h: Hunts, f: Finish) {
    !f.retired && !h.progress.dryRun
  }

  function ScoreOf(c: HuntCatalog, h: Hunts, f: Finish): int {
    Score(h.detail.damage, Difficulty(c, f.quest), h.detail.combo)
  }

  function RewardsOf(c: HuntCatalog, h: Hunts, f: Finish): seq<Grant> {
    var boss := c.Quest(f.bossQuest).boss;
    if ScoreOf(c, h, f) > h.Best(boss) && GroupOf(c, f) > 0
    then Collect(c, GroupOf(c, f), h.Best(boss), ScoreOf(c, h, f)) else []
  }

  function Finished(c: HuntCatalog, h: Hunts, f: Finish): Hunts {
    if !Counts(h, f) then h.(progress := Progress(0, 0, 0, false, f.now))
    else
      var boss, score := c.Quest(f.bossQuest).boss, ScoreOf(c, h, f);
      Hunts(Raise(h.best, boss, score, f.now),
            Raise(h.scheduled, (c.activeSchedule, boss), score, f.now),
            Raise(h.weekly, (f.week, c.Attribute(boss)), score, f.now),
            Progress(0, 0, 0, false, f.now), [], NO_DETAIL,
            h.paid[boss := h.Paid(boss) + RewardsOf(c, h, f)])
  }

  /** What a counted hunt is answered. */
  datatype ScoreInfo = ScoreInfo(
    score: int, highScore: bool, totalDamage: int, baseScore: int,
    difficultyBonus: int, aliveBonus: int, comboBonus: int, gradeIcon: int)

  function InfoOf(c: HuntCatalog, h: Hunts, f: Finish): ScoreInfo {
    var boss, score := c.Quest(f.bossQuest).boss, ScoreOf(c, h, f);
    ScoreInfo(score, score > h.Best(boss), h.detail.damage, h.detail.damage,
              Difficulty(c, f.quest), 500, ComboBonus(h.detail.combo), GradeIcon(c, boss, score))
  }

  class HuntState {
    var maxScores: map<int, Record>
    var scheduleMaxScores: map<(int, int), Record>
    var weeklyMaxScores: map<(int, int), Record>
    var progress: Progress
    var battleBinary: seq<int>
    var detail: Detail
    ghost var paid: map<int, seq<Grant>>

    ghost function View(): Hunts
      reads this
    {
      Hunts(maxScores, scheduleMaxScores, weeklyMaxScores, progress, battleBinary, detail, paid)
    }

    method ScoreHunt(c: HuntCatalog, quest: int) returns (score: int, difficulty: int, comboBonus: int)
      ensures difficulty == Difficulty(c, quest) && comboBonus == ComboBonus(detail.combo)
      ensures score == Score(detail.damage, Difficulty(c, quest), detail.combo)
    {
      difficulty := 0;
      var coefficientId := GetOr(c.coefficientOf, quest, 0);
      if coefficientId in c.coefficients {
        difficulty := c.coefficients[coefficientId];
      }
      comboBonus := 0;
      if detail.combo >= 100 {
        comboBonus := 300;
      } else if detail.combo >= 50 {
        comboBonus := 200;
      } else if detail.combo >= 20 {
        comboBonus := 100;
      }
      score := Quotient(detail.damage * (1000 + difficulty + 500 + comboBonus), 1000);
    }

    method RecordScore(boss: int, schedule: int, week: int, attribute: int, score: int, now: int) returns (oldMax: int)
      modifies this`maxScores, this`scheduleMaxScores, this`weeklyMaxScores
      ensures oldMax == GetOr(old(maxScores), boss, NO_RECORD).score
      ensures maxScores == Raise(old(maxScores), boss, score, now)
      ensures scheduleMaxScores == Raise(old(scheduleMaxScores), (schedule, boss), score, now)
      ensures weeklyMaxScores == Raise(old(weeklyMaxScores), (week, attribute), score, now)
    {
      oldMax := GetOr(maxScores, boss, NO_RECORD).score;
      if score > oldMax {
        maxScores := maxScores[boss := Record(score, now)];
      }
      if score > GetOr(scheduleMaxScores, (schedule, boss), NO_RECORD).score {
        scheduleMaxScores := scheduleMaxScores[(schedule, boss) := Record(score, now)];
      }
      if score > GetOr(weeklyMaxScores, (week, attribute), NO_RECORD).score {
        weeklyMaxScores := weeklyMaxScores[(week, attribute) := Record(score, now)];
      }
    }

    /** A retired or dry-run hunt only ends the progress: the battle detail stays. */
    method FinishBigHuntQuest(c: HuntCatalog, f: Finish) returns (info: Option<ScoreInfo>, rewards: seq<Grant>)
      modifies this
      ensures View() == Finished(c, old(View()), f)
      ensures !Counts(old(View()), f) ==> info == None && rewards == []
      ensures Counts(old(View()), f) ==> rewards == RewardsOf(c, old(View()), f) && info == Some(InfoOf(c, old(View()), f))
    {
      hide Score, Difficulty, ComboBonus, Raise, Collect, ActiveGroup, NewestFirst, GradeIcon;
      rewards := [];
      if f.retired || progress.dryRun {
        progress := Progress(0, 0, 0, false, f.now);
        return None, [];
      }
      var bossQuest := c.Quest(f.bossQuest);
      var userScore, difficulty, comboBonus := ScoreHunt(c, f.quest);
      var oldMax := RecordScore(bossQuest.boss, c.activeSchedule, f.week, c.Attribute(bossQuest.boss), userScore, f.now);
      var isHighScore := userScore > oldMax;
      var icon := ResolveGradeIconId(c, bossQuest.boss, userScore);
      info := Some(ScoreInfo(userScore, isHighScore, detail.damage, detail.damage, difficulty, 500, comboBonus, icon));
      if isHighScore {
        var rewardGroupId := ResolveActiveGroup(GetOr(c.periods, bossQuest.schedule, []), f.now);
        if rewardGroupId > 0 {
          rewards := CollectNewRewards(c, rewardGroupId, oldMax, userScore);
        }
      }
      paid := paid[bossQuest.boss := GetOr(paid, bossQuest.boss, []) + rewards];
      progress := Progress(0, 0, 0, false, f.now);
      battleBinary := [];
      detail := NO_DETAIL;
    }

    /** StartBigHuntQuest, as far as the hunt's own progress goes. */
    method StartBigHuntQuest(bossQuest: int, quest: int, dryRun: bool, now: int)
      modifies this`progress
      ensures progress == Progress(bossQuest, quest, 0, dryRun, now)
    {
      progress := Progress(bossQuest, quest, 0, dryRun, now);
    }

    /** SaveBigHuntBattleInfo: the damage of the costumes reported is added up and replaces the damage sent with the
        detail; without a detail the old one stays, but not the binary. */
    method SaveBigHuntBattleInfo(binary: seq<int>, sent: Option<Detail>, damages: seq<Option<int>>, now: int)
      modifies this`progress, this`battleBinary, this`detail
      ensures battleBinary == binary && progress == old(progress).(version := now)
      ensures detail == if sent.Some? then sent.value.(damage := Total(damages)) else old(detail)
    {
      var totalDamage := 0;
      if sent.Some? {
        for i := 0 to |damages|
          invariant battleBinary == old(battleBinary) && progress == old(progress) && detail == old(detail)
          invariant totalDamage == Total(damages[..i])
        {
          assert damages[..i + 1][..i] == damages[..i];
          if damages[i].Some? {
            totalDamage := totalDamage + damages[i].value;
          }
        }
        assert damages[..|damages|] == damages;
      }
      battleBinary := binary;
      if sent.Some? {
        detail := Detail(sent.value.deckType, sent.value.deckNumber, sent.value.knockDowns, sent.value.combo, totalDamage);
      }
      progress := progress.(version := now);
    }
  }

  /** Damage of the costumes there is a report of. */
  function Total(xs: seq<Option<int>>): int {
    if xs == [] then 0
    else Total(xs[..|xs| - 1]) + if xs[|xs| - 1].Some? then xs[|xs| - 1].value else 0
  }

  // ---- Runs ----

  /** A start, a saved battle with or without a detail, a finish. */
  datatype Event =
    | Start(bossQuest: int, quest: int, dryRun: bool, now: int)
    | Save(binary: seq<int>, sent: Option<Detail>, now: int)
    | End(finish: Finish)

  function After(c: HuntCatalog, h: Hunts, e: Event): Hunts {
    match e
    case Start(bossQuest, quest, dryRun, now) => h.(progress := Progress(bossQuest, quest, 0, dryRun, now))
    case Save(binary, sent, now) =>
      h.(binary := binary, detail := if sent.Some? then sent.value else h.detail, progress := h.progress.(version := now))
    case End(f) => Finished(c, h, f)
  }

  function StateAfter(c: HuntCatalog, h: Hunts, es: seq<Event>): Hunts {
    if es == [] then h else After(c, StateAfter(c, h, es[..|es| - 1]), es[|es| - 1])
  }

  predicate CountsFor(c: HuntCatalog, h: Hunts, e: Event, boss: int) {
    e.End? && Counts(h, e.finish) && c.Quest(e.finish.bossQuest).boss == boss
  }

  /** The scores of the run's counted hunts of a boss. */
  function CountedScores(c: HuntCatalog, h: Hunts, es: seq<Event>, boss: int): seq<int> {
    if es == [] then []
    else
      var n := |es| - 1;
      var before := StateAfter(c, h, es[..n]);
      CountedScores(c, h, es[..n], boss) + if CountsFor(c, before, es[n], boss) then [ScoreOf(c, before, es[n].finish)] else []
  }

  function Greatest(least: int, scores: seq<int>): int {
    if scores == [] then least
    else
      var best, last := Greatest(least, scores[..|scores| - 1]), scores[|scores| - 1];
      if last > best then last else best
  }

  /** Every hunt of the boss draws its rewards from one group. */
  predicate OneGroup(c: HuntCatalog, es: seq<Event>, boss: int, group: int) {
    forall e :: e in es && e.End? && c.Quest(e.finish.bossQuest).boss == boss ==> GroupOf(c, e.finish) == group
  }

  function Due(c: HuntCatalog, group: int, lo: int, hi: int): seq<Grant> {
    if group > 0 then Collect(c, group, lo, hi) else []
  }

  /** Over any run of hunts finished, retired and dry, the stored maximum of a boss is the greatest counted score. */
  lemma {:induction false} BestIsGreatest(c: HuntCatalog, h: Hunts, es: seq<Event>, boss: int)
    ensures StateAfter(c, h, es).Best(boss) == Greatest(h.Best(boss), CountedScores(c, h, es, boss)) >= h.Best(boss)
  {
    hide ScoreOf, RewardsOf, After, CountsFor;
    if es != [] {
      var n := |es| - 1;
      BestIsGreatest(c, h, es[..n], boss);
      HuntBest(c, StateAfter(c, h, es[..n]), es[n], boss);
      var counted, all := CountedScores(c, h, es[..n], boss), CountedScores(c, h, es, boss);
      if all != counted {
        assert all[..|all| - 1] == counted;
      }
    }
  }

  lemma HuntBest(c: HuntCatalog, h: Hunts, e: Event, boss: int)
    ensures After(c, h, e).Best(boss) ==
            if CountsFor(c, h, e, boss) && ScoreOf(c, h, e.finish) > h.Best(boss) then ScoreOf(c, h, e.finish) else h.Best(boss)
  {
    hide ScoreOf, RewardsOf;
  }

  /** And the rewards paid for the boss are those of the thresholds passed between the first maximum and the last,
      each once and in order. */
  lemma {:induction false} ScoreRewardsTelescope(c: HuntCatalog, h: Hunts, es: seq<Event>, boss: int, group: int)
    requires Sorted(c.Thresholds(group)) && OneGroup(c, es, boss, group)
    ensures var v := StateAfter(c, h, es);
            v.Best(boss) >= h.Best(boss) && v.Paid(boss) == h.Paid(boss) + Due(c, group, h.Best(boss), v.Best(boss))
  {
    hide After, Due, GroupOf;
    if es == [] {
      DueNothing(c, group, h.Best(boss), h.Best(boss));
    } else {
      var n := |es| - 1;
      assert es[n] in es && forall e :: e in es[..n] ==> e in es;
      ScoreRewardsTelescope(c, h, es[..n], boss, group);
      HuntPays(c, StateAfter(c, h, es[..n]), es[n], boss, group);
      var before, after := StateAfter(c, h, es[..n]).Best(boss), StateAfter(c, h, es).Best(boss);
      DueTelescopes(c, group, h.Best(boss), before, after);
    }
  }

  /** From a new user on, the thresholds up to the best counted score are paid, each exactly once. */
  lemma AllDuePaid(c: HuntCatalog, h: Hunts, es: seq<Event>, boss: int, group: int)
    requires Sorted(c.Thresholds(group)) && OneGroup(c, es, boss, group) && group > 0
    requires boss !in h.best && boss !in h.paid
    ensures StateAfter(c, h, es).Paid(boss) == Collect(c, group, 0, Greatest(0, CountedScores(c, h, es, boss)))
  {
    BestIsGreatest(c, h, es, boss);
    ScoreRewardsTelescope(c, h, es, boss, group);
  }

  lemma DueNothing(c: HuntCatalog, group: int, lo: int, hi: int)
    requires hi <= lo
    ensures Due(c, group, lo, hi) == []
  {
    CollectNothing(c, c.Thresholds(group), lo, hi);
  }

  lemma DueTelescopes(c: HuntCatalog, group: int, lo: int, mid: int, hi: int)
    requires Sorted(c.Thresholds(group)) && lo <= mid <= hi
    ensures Due(c, group, lo, mid) + Due(c, group, mid, hi) == Due(c, group, lo, hi)
  {
    CollectTelescopes(c, c.Thresholds(group), lo, mid, hi);
  }

  lemma HuntPays(c: HuntCatalog, h: Hunts, e: Event, boss: int, group: int)
    requires OneGroup(c, [e], boss, group)
    ensures var v := After(c, h, e);
            v.Best(boss) >= h.Best(boss) && v.Paid(boss) == h.Paid(boss) + Due(c, group, h.Best(boss), v.Best(boss))
  {
    hide ScoreOf, Collect, GroupOf;
    DueNothing(c, group, h.Best(boss), h.Best(boss));
    assert e in [e];
  }

  /** No schedule maximum of a boss is above the boss's maximum. */
  ghost predicate SchedulesBelow(h: Hunts) {
    forall schedule, boss :: h.Scheduled(schedule, boss) <= h.Best(boss)
  }

  lemma ScheduleStep(c: HuntCatalog, h: Hunts, e: Event, schedule: int, boss: int)
    requires SchedulesBelow(h)
    ensures After(c, h, e).Scheduled(schedule, boss) <= After(c, h, e).Best(boss)
  {
    hide ScoreOf, RewardsOf, SchedulesBelow;
    assert h.Scheduled(schedule, boss) <= h.Best(boss) by {
      ScheduleBelow(h, schedule, boss);
    }
  }

  lemma ScheduleBelow(h: Hunts, schedule: int, boss: int)
    requires SchedulesBelow(h)
    ensures h.Scheduled(schedule, boss) <= h.Best(boss)
  {
  }

  lemma {:induction false} SchedulesStayBelow(c: HuntCatalog, h: Hunts, es: seq<Event>)
    requires SchedulesBelow(h)
    ensures SchedulesBelow(StateAfter(c, h, es))
  {
    hide ScoreOf, RewardsOf;
    if es != [] {
      var n := |es| - 1;
      SchedulesStayBelow(c, h, es[..n]);
      forall schedule, boss ensures StateAfter(c, h, es).Scheduled(schedule, boss) <= StateAfter(c, h, es).Best(boss) {
        ScheduleStep(c, StateAfter(c, h, es[..n]), es[n], schedule, boss);
      }
    }
  }

  // ---- One hunt, field by field ----

  /** A record is beaten at one key and nowhere else. */
  ghost predicate RaisedAt<K(!new)>(m: map<K, Record>, k: K, score: int, now: int, r: map<K, Record>) {
    forall x ::
      if x == k && score > GetOr(m, x, Record(0, 0)).score then x in r && r[x] == Record(score, now)
      else (x in r <==> x in m) && (x in m ==> r[x] == m[x])
  }

  lemma RaiseRaises<K(!new)>(m: map<K, Record>, k: K, score: int, now: int)
    ensures RaisedAt(m, k, score, now, Raise(m, k, score, now))
  {
  }

  /** A hunt that counts raises the boss's record, the record of the boss in the current schedule and that of the boss's
      attribute in the week, and ends with the battle forgotten; one that does not only ends. */
  lemma HuntWrites(c: HuntCatalog, h: Hunts, f: Finish)
    ensures var t := After(c, h, End(f));
            t.progress == Progress(0, 0, 0, false, f.now) &&
            if f.retired || h.progress.dryRun then
              && t.best == h.best && t.scheduled == h.scheduled && t.weekly == h.weekly
              && t.binary == h.binary && t.detail == h.detail && t.paid == h.paid
            else
              var boss, score := GetOr(c.bossQuests, f.bossQuest, BossQuest(0, 0)).boss, ScoreOf(c, h, f);
              && RaisedAt(h.best, boss, score, f.now, t.best)
              && RaisedAt(h.scheduled, (c.activeSchedule, boss), score, f.now, t.scheduled)
              && RaisedAt(h.weekly, (f.week, GetOr(c.bosses, boss, Boss(0, 0)).attribute), score, f.now, t.weekly)
              && t.binary == [] && t.detail == Detail(0, 0, 0, 0, 0)
  {
    hide ScoreOf, RewardsOf, Raise, RaisedAt;
    var boss, score := c.Quest(f.bossQuest).boss, ScoreOf(c, h, f);
    RaiseRaises(h.best, boss, score, f.now);
    RaiseRaises(h.scheduled, (c.activeSchedule, boss), score, f.now);
    RaiseRaises(h.weekly, (f.week, c.Attribute(boss)), score, f.now);
  }

  /** What a counted hunt is told: its score for the damage, the difficulty of the quest and the combo reached, the
      parts it is made of, and whether it beats the boss's record. */
  lemma HuntTold(c: HuntCatalog, h: Hunts, f: Finish)
    ensures var i := InfoOf(c, h, f);
            var boss := GetOr(c.bossQuests, f.bossQuest, BossQuest(0, 0)).boss;
            var difficulty := GetOr(c.coefficients, GetOr(c.coefficientOf, f.quest, 0), 0);
            && i.score == Score(h.detail.damage, difficulty, h.detail.combo) == ScoreOf(c, h, f)
            && (i.highScore <==> i.score > GetOr(h.best, boss, Record(0, 0)).score)
            && i.totalDamage == i.baseScore == h.detail.damage
            && i.difficultyBonus == difficulty && i.aliveBonus == 500
            && i.comboBonus == (if h.detail.combo < 20 then 0 else if h.detail.combo < 50 then 100
                                else if h.detail.combo < 100 then 200 else 300)
            && i.gradeIcon == GradeIcon(c, boss, i.score)
  {
    hide Score, GradeIcon;
  }

  // ---- Reward groups that change between hunts ----

  /** A threshold: its group and its place there. */
  datatype Mark = Mark(group: int, place: int)

  /** The thresholds above lo up to hi among the first n of a group, in order. */
  function Passed(ts: seq<Threshold>, group: int, n: nat, lo: int, hi: int): seq<Mark>
    requires n <= |ts|
  {
    if n == 0 then []
    else Passed(ts, group, n - 1, lo, hi) + if lo < ts[n - 1].score <= hi then [Mark(group, n - 1)] else []
  }

  function RewardsFor(c: HuntCatalog, marks: seq<Mark>): seq<Grant> {
    if marks == [] then []
    else
      var m := marks[|marks| - 1];
      RewardsFor(c, marks[..|marks| - 1])
      + if 0 <= m.place < |c.Thresholds(m.group)| then c.Items(c.Thresholds(m.group)[m.place].rewards) else []
  }

  lemma {:induction false} RewardsAdd(c: HuntCatalog, a: seq<Mark>, b: seq<Mark>)
    ensures RewardsFor(c, a + b) == RewardsFor(c, a) + RewardsFor(c, b)
  {
    if b == [] {
      assert a + b == a;
    } else {
      assert (a + b)[..|a + b| - 1] == a + b[..|b| - 1];
      RewardsAdd(c, a, b[..|b| - 1]);
    }
  }

  lemma RewardsSnoc(c: HuntCatalog, marks: seq<Mark>, g: int, k: int)
    requires 0 <= k < |c.Thresholds(g)|
    ensures RewardsFor(c, marks + [Mark(g, k)]) == RewardsFor(c, marks) + c.Items(c.Thresholds(g)[k].rewards)
  {
    assert (marks + [Mark(g, k)])[..|marks|] == marks;
  }

  lemma {:induction false} CollectIsPassed(c: HuntCatalog, group: int, ts: seq<Threshold>, n: nat, lo: int, hi: int)
    requires n <= |ts| && ts == c.Thresholds(group)
    ensures CollectFrom(c, ts[..n], lo, hi) == RewardsFor(c, Passed(ts, group, n, lo, hi))
  {
    if n == 0 {
      assert Passed(ts, group, n, lo, hi) == [];
    } else {
      CollectIsPassed(c, group, ts, n - 1, lo, hi);
      assert ts[..n][..n - 1] == ts[..n - 1] && ts[..n][n - 1] == ts[n - 1];
      var before := Passed(ts, group, n - 1, lo, hi);
      if lo < ts[n - 1].score <= hi {
        RewardsSnoc(c, before, group, n - 1);
        assert Passed(ts, group, n, lo, hi) == before + [Mark(group, n - 1)];
      } else {
        assert Passed(ts, group, n, lo, hi) == before;
      }
    }
  }

  predicate IsPassed(ts: seq<Threshold>, group: int, n: nat, lo: int, hi: int, m: Mark) {
    m.group == group && 0 <= m.place < n && m.place < |ts| && lo < ts[m.place].score <= hi
  }

  lemma PassedNext(ts: seq<Threshold>, group: int, n: nat, lo: int, hi: int)
    requires n < |ts|
    ensures Passed(ts, group, n + 1, lo, hi) ==
            Passed(ts, group, n, lo, hi) + if lo < ts[n].score <= hi then [Mark(group, n)] else []
  {
  }

  lemma IsPassedNext(ts: seq<Threshold>, group: int, n: nat, lo: int, hi: int, m: Mark)
    requires n < |ts|
    ensures IsPassed(ts, group, n + 1, lo, hi, m) <==>
            IsPassed(ts, group, n, lo, hi, m) || (m == Mark(group, n) && lo < ts[n].score <= hi)
    ensures !IsPassed(ts, group, n, lo, hi, Mark(group, n))
  {
  }

  lemma {:induction false} PassedCounts(ts: seq<Threshold>, group: int, n: nat, lo: int, hi: int, m: Mark)
    requires n <= |ts|
    ensures multiset(Passed(ts, group, n, lo, hi))[m] == if IsPassed(ts, group, n, lo, hi, m) then 1 else 0
  {
    hide Passed, IsPassed;
    if n == 0 {
      NothingPassed(ts, group, lo, hi, m);
    } else {
      PassedCounts(ts, group, n - 1, lo, hi, m);
      PassedNext(ts, group, n - 1, lo, hi);
      IsPassedNext(ts, group, n - 1, lo, hi, m);
      var before, here := Passed(ts, group, n - 1, lo, hi), Mark(group, n - 1);
      if lo < ts[n - 1].score <= hi {
        assert Passed(ts, group, n, lo, hi) == before + [here];
        OneMark(before, here, m);
      } else {
        assert Passed(ts, group, n, lo, hi) == before;
      }
    }
  }

  lemma NothingPassed(ts: seq<Threshold>, group: int, lo: int, hi: int, m: Mark)
    ensures multiset(Passed(ts, group, 0, lo, hi))[m] == 0 && !IsPassed(ts, group, 0, lo, hi, m)
  {
  }

  lemma OneMark(marks: seq<Mark>, m: Mark, x: Mark)
    ensures multiset(marks + [m])[x] == multiset(marks)[x] + if x == m then 1 else 0
  {
  }

  /** The thresholds one event pays for the boss. */
  function MarksOf(c: HuntCatalog, h: Hunts, e: Event, boss: int): seq<Mark> {
    if CountsFor(c, h, e, boss) && GroupOf(c, e.finish) > 0 then
      var ts := c.Thresholds(GroupOf(c, e.finish));
      Passed(ts, GroupOf(c, e.finish), |ts|, h.Best(boss), After(c, h, e).Best(boss))
    else []
  }

  /** And those a run pays, hunt after hunt, each by the group in force at the time. */
  function MarksPaid(c: HuntCatalog, h: Hunts, es: seq<Event>, boss: int): seq<Mark> {
    if es == [] then []
    else
      var n := |es| - 1;
      MarksPaid(c, h, es[..n], boss) + MarksOf(c, StateAfter(c, h, es[..n]), es[n], boss)
  }

  lemma EventPaysMarks(c: HuntCatalog, h: Hunts, e: Event, boss: int)
    ensures After(c, h, e).Paid(boss) == h.Paid(boss) + RewardsFor(c, MarksOf(c, h, e, boss))
  {
    hide ScoreOf, GroupOf, RewardsFor, Passed;
    assert RewardsFor(c, []) == [] by {
      NoMarks(c);
    }
    if CountsFor(c, h, e, boss) && GroupOf(c, e.finish) > 0 {
      var ts := c.Thresholds(GroupOf(c, e.finish));
      assert ts[..|ts|] == ts;
      CollectIsPassed(c, GroupOf(c, e.finish), ts, |ts|, h.Best(boss), After(c, h, e).Best(boss));
      CollectNothing(c, ts, h.Best(boss), h.Best(boss));
    }
  }

  lemma NoMarks(c: HuntCatalog)
    ensures RewardsFor(c, []) == []
  {
  }

  /** Whatever group each hunt draws on, the rewards paid over a run are those of the thresholds each counted hunt
      carried the maximum across in its own group. */
  lemma {:induction false} MarksArePaid(c: HuntCatalog, h: Hunts, es: seq<Event>, boss: int)
    ensures StateAfter(c, h, es).Paid(boss) == h.Paid(boss) + RewardsFor(c, MarksPaid(c, h, es, boss))
  {
    hide After, MarksOf, RewardsFor;
    if es == [] {
      NoMarks(c);
    } else {
      var n := |es| - 1;
      MarksArePaid(c, h, es[..n], boss);
      EventPaysMarks(c, StateAfter(c, h, es[..n]), es[n], boss);
      RewardsAdd(c, MarksPaid(c, h, es[..n], boss), MarksOf(c, StateAfter(c, h, es[..n]), es[n], boss));
    }
  }

  /** Event i carries the boss's maximum across the score. */
  predicate Crosses(c: HuntCatalog, h: Hunts, es: seq<Event>, boss: int, score: int, i: int) {
    0 <= i < |es| && StateAfter(c, h, es[..i]).Best(boss) < score <= StateAfter(c, h, es[..i + 1]).Best(boss)
  }

  lemma {:induction false} BestRises(c: HuntCatalog, h: Hunts, es: seq<Event>, boss: int, i: nat)
    requires i <= |es|
    ensures StateAfter(c, h, es[..i]).Best(boss) <= StateAfter(c, h, es).Best(boss)
  {
    hide After;
    if i < |es| {
      var n := |es| - 1;
      assert es[..n][..i] == es[..i];
      BestRises(c, h, es[..n], boss, i);
      HuntBest(c, StateAfter(c, h, es[..n]), es[n], boss);
    } else {
      assert es[..i] == es;
    }
  }

  /** A score above the first maximum and up to the last is crossed by one event, a counted hunt. */
  lemma {:induction false} OneCrossing(c: HuntCatalog, h: Hunts, es: seq<Event>, boss: int, score: int) returns (i: nat)
    requires h.Best(boss) < score <= StateAfter(c, h, es).Best(boss)
    ensures Crosses(c, h, es, boss, score, i) && CountsFor(c, StateAfter(c, h, es[..i]), es[i], boss)
    ensures forall j :: Crosses(c, h, es, boss, score, j) ==> j == i
  {
    hide After, CountsFor;
    var n := |es| - 1;
    assert es[..n + 1] == es;
    var before := StateAfter(c, h, es[..n]);
    HuntBest(c, before, es[n], boss);
    if before.Best(boss) < score {
      i := n;
      forall j | Crosses(c, h, es, boss, score, j) ensures j == i {
        if j < n {
          assert es[..n][..j + 1] == es[..j + 1];
          BestRises(c, h, es[..n], boss, j + 1);
        }
      }
    } else {
      i := OneCrossing(c, h, es[..n], boss, score);
      assert es[..n][..i] == es[..i] && es[..n][..i + 1] == es[..i + 1];
      forall j | Crosses(c, h, es, boss, score, j) ensures j == i {
        if j < n {
          assert es[..n][..j] == es[..j] && es[..n][..j + 1] == es[..j + 1];
          assert Crosses(c, h, es[..n], boss, score, j);
        }
      }
    }
  }

  /** A score not reached, or reached before, pays nothing. */
  lemma {:induction false} NotCrossedUnpaid(c: HuntCatalog, h: Hunts, es: seq<Event>, boss: int, g: int, k: int)
    requires 0 <= k < |c.Thresholds(g)|
    requires var score := c.Thresholds(g)[k].score; score <= h.Best(boss) || StateAfter(c, h, es).Best(boss) < score
    ensures multiset(MarksPaid(c, h, es, boss))[Mark(g, k)] == 0
  {
    hide After, MarksOf;
    if es != [] {
      var n := |es| - 1;
      var before := StateAfter(c, h, es[..n]);
      HuntBest(c, before, es[n], boss);
      MarkOfEvent(c, before, es[n], boss, g, k);
      BestIsGreatest(c, h, es[..n], boss);
      NotCrossedUnpaid(c, h, es[..n], boss, g, k);
    }
  }

  lemma MarkOfEvent(c: HuntCatalog, h: Hunts, e: Event, boss: int, g: int, k: int)
    requires 0 <= k < |c.Thresholds(g)|
    ensures multiset(MarksOf(c, h, e, boss))[Mark(g, k)] ==
            if CountsFor(c, h, e, boss) && GroupOf(c, e.finish) == g && g > 0
               && h.Best(boss) < c.Thresholds(g)[k].score <= After(c, h, e).Best(boss) then 1 else 0
  {
    hide After, GroupOf, Passed;
    if CountsFor(c, h, e, boss) && GroupOf(c, e.finish) > 0 {
      var ts := c.Thresholds(GroupOf(c, e.finish));
      PassedCounts(ts, GroupOf(c, e.finish), |ts|, h.Best(boss), After(c, h, e).Best(boss), Mark(g, k));
    }
  }

  /** A threshold between the first maximum and the last is paid once if its group was in force at the hunt that
      carried the maximum across its score, and otherwise never, however often its group comes back. */
  lemma {:induction false} ThresholdPaidExactly(c: HuntCatalog, h: Hunts, es: seq<Event>, boss: int, g: int, k: int) returns (i: nat)
    requires 0 <= k < |c.Thresholds(g)| && g > 0
    requires h.Best(boss) < c.Thresholds(g)[k].score <= StateAfter(c, h, es).Best(boss)
    ensures Crosses(c, h, es, boss, c.Thresholds(g)[k].score, i) && es[i].End?
    ensures multiset(MarksPaid(c, h, es, boss))[Mark(g, k)] == if GroupOf(c, es[i].finish) == g then 1 else 0
  {
    hide After, MarksOf, GroupOf;
    var score, n := c.Thresholds(g)[k].score, |es| - 1;
    assert es[..n + 1] == es;
    var before := StateAfter(c, h, es[..n]);
    HuntBest(c, before, es[n], boss);
    MarkOfEvent(c, before, es[n], boss, g, k);
    if before.Best(boss) < score {
      i := n;
      NotCrossedUnpaid(c, h, es[..n], boss, g, k);
    } else {
      i := ThresholdPaidExactly(c, h, es[..n], boss, g, k);
      assert es[..n][..i] == es[..i] && es[..n][..i + 1] == es[..i + 1];
    }
  }
}
