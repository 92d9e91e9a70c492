/** exp.go and the costume part of applyExpRewards: levels from cumulative experience. */
module Experience {
  import opened Wrappers
  import opened Store

  datatype Leveled = Leveled(level: int, exp: int)

  /** The last level from k - 1 on whose threshold, and every one on the way, is met. */
  function ClimbFrom(exp: int, thresholds: seq<int>, k: nat): (level: int)
    requires k >= 1
    ensures k - 1 <= level && (level < |thresholds| || level == k - 1)
    decreases |thresholds| - k
  {
    if k < |thresholds| && exp >= thresholds[k] then ClimbFrom(exp, thresholds, k + 1) else k - 1
  }

  function LevelOf(exp: int, thresholds: seq<int>): int {
    var l := ClimbFrom(exp, thresholds, 1);
    if l == 0 then 1 else l
  }

  function Capped(exp: int, thresholds: seq<int>): int {
    if |thresholds| > 0 && exp > thresholds[|thresholds| - 1] then thresholds[|thresholds| - 1] else exp
  }

  function LevelAndCapOf(exp: int, thresholds: seq<int>): Leveled {
    Leveled(LevelOf(exp, thresholds), Capped(exp, thresholds))
  }

  method LevelAndCap(exp: int, thresholds: seq<int>) returns (level: int, capped: int)
    ensures Leveled(level, capped) == LevelAndCapOf(exp, thresholds)
  {
    level := 1;
    var lvl := 1;
    while lvl < |thresholds|
      invariant 1 <= lvl && (|thresholds| <= 1 || lvl <= |thresholds|)
      invariant level == if lvl == 1 then 1 else lvl - 1
      invariant ClimbFrom(exp, thresholds, 1) == ClimbFrom(exp, thresholds, lvl)
    {
      if exp >= thresholds[lvl] {
        level := lvl;
      } else {
        break;
      }
      lvl := lvl + 1;
    }
    capped := exp;
    if |thresholds| > 0 && capped > thresholds[|thresholds| - 1] {
      capped := thresholds[|thresholds| - 1];
    }
  }

  ghost predicate Sorted(thresholds: seq<int>) {
    forall i, j :: 0 <= i < j < |thresholds| ==> thresholds[i] <= thresholds[j]
  }

  lemma {:induction false} ClimbMeets(exp: int, thresholds: seq<int>, k: nat)
    requires 1 <= k && Sorted(thresholds)
    ensures var l := ClimbFrom(exp, thresholds, k);
            forall j :: k <= j < |thresholds| ==> (thresholds[j] <= exp <==> j <= l)
    decreases |thresholds| - k
  {
    if k < |thresholds| && exp >= thresholds[k] {
      ClimbMeets(exp, thresholds, k + 1);
    }
  }

  /** In a sorted table the level is the greatest one whose threshold is met, and 1 at the least. */
  lemma LevelIsGreatest(exp: int, thresholds: seq<int>)
    requires Sorted(thresholds)
    ensures var l := LevelOf(exp, thresholds);
            && 1 <= l
            && (l > 1 ==> l < |thresholds|)
            && forall j :: 2 <= j < |thresholds| ==> (thresholds[j] <= exp <==> j <= l)
  {
    ClimbMeets(exp, thresholds, 1);
  }

  lemma {:induction false} ClimbMonotone(a: int, b: int, thresholds: seq<int>, k: nat)
    requires 1 <= k && a <= b
    ensures ClimbFrom(a, thresholds, k) <= ClimbFrom(b, thresholds, k)
    decreases |thresholds| - k
  {
    if k < |thresholds| && a >= thresholds[k] {
      ClimbMonotone(a, b, thresholds, k + 1);
    }
  }

  lemma {:induction false} ClimbCapped(exp: int, thresholds: seq<int>, k: nat)
    requires 1 <= k && Sorted(thresholds)
    ensures ClimbFrom(Capped(exp, thresholds), thresholds, k) == ClimbFrom(exp, thresholds, k)
    decreases |thresholds| - k
  {
    if k < |thresholds| && exp >= thresholds[k] {
      ClimbCapped(exp, thresholds, k + 1);
    }
  }

  /** Gaining a and then b is gaining a + b at once: level and experience alike. */
  lemma GainTwice(exp: int, a: nat, b: nat, thresholds: seq<int>)
    requires Sorted(thresholds)
    ensures LevelAndCapOf(LevelAndCapOf(exp + a, thresholds).exp + b, thresholds)
            == LevelAndCapOf(exp + a + b, thresholds)
  {
    var first := Capped(exp + a, thresholds) + b;
    assert Capped(first, thresholds) == Capped(exp + a + b, thresholds);
    ClimbCapped(first, thresholds, 1);
    ClimbCapped(exp + a + b, thresholds, 1);
  }

  /** A gain never lowers the level. */
  lemma GainNeverLowers(exp: int, a: nat, thresholds: seq<int>)
    ensures LevelAndCapOf(exp + a, thresholds).level >= LevelOf(exp, thresholds)
  {
    ClimbMonotone(exp, exp + a, thresholds, 1);
  }

  // ---- Costumes ----

  /** What the catalog says about a costume's rarity: its thresholds and its level cap at its limit break. */
  datatype CostumeRules = CostumeRules(thresholds: Option<seq<int>>, maxLevel: Option<int>)

  /** The costume after a gain; None when it is at its cap and left alone. */
  function CostumeGain(row: Costume, amount: int, rules: CostumeRules): Option<Costume> {
    if rules.maxLevel.Some? && row.level >= rules.maxLevel.value then None
    else
      var exp := row.exp + amount;
      match rules.thresholds
      case None => Some(row.(exp := exp))
      case Some(t) =>
        var l := LevelAndCapOf(exp, t);
        if rules.maxLevel.Some? && l.level > rules.maxLevel.value && 0 <= rules.maxLevel.value < |t|
        then Some(row.(level := rules.maxLevel.value, exp := t[rules.maxLevel.value]))
        else Some(row.(level := l.level, exp := l.exp))
  }

  method GainCostumeExp(costume: Costume, amount: int, rules: CostumeRules) returns (row: Costume, skipped: bool)
    ensures skipped <==> CostumeGain(costume, amount, rules).None?
    ensures row == if skipped then costume else CostumeGain(costume, amount, rules).value
  {
    row, skipped := costume, false;
    if rules.maxLevel.Some? {
      if row.level >= rules.maxLevel.value {
        return row, true;
      }
    }
    row := row.(exp := row.exp + amount);
    if rules.thresholds.Some? {
      var thresholds := rules.thresholds.value;
      var level, exp := LevelAndCap(row.exp, thresholds);
      row := row.(level := level, exp := exp);
      if rules.maxLevel.Some? {
        var maxLevel := rules.maxLevel.value;
        if row.level > maxLevel && 0 <= maxLevel < |thresholds| {
          row := row.(level := maxLevel, exp := thresholds[maxLevel]);
        }
      }
    }
  }

  /** Quest experience never lifts a costume past its limit-break level cap, and at the cap its
      experience is the cap's own threshold. */
  lemma CostumeStaysUnderCap(row: Costume, amount: nat, rules: CostumeRules)
    requires row.level >= 0 && rules.maxLevel.Some? && CostumeGain(row, amount, rules).Some?
    ensures var r := CostumeGain(row, amount, rules).value;
            && r.level <= rules.maxLevel.value
            && (rules.thresholds.Some? && r.level < LevelOf(row.exp + amount, rules.thresholds.value) ==>
                  r.level == rules.maxLevel.value < |rules.thresholds.value|
                  && r.exp == rules.thresholds.value[rules.maxLevel.value])
            && r.costumeId == row.costumeId && r.limitBreak == row.limitBreak
  {
  }
}
