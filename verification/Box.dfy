/** Box gacha: drawing without replacement (gacha/draw.go) against the counts a banner keeps (gacha/handler.go).
    Which of the remaining copies is drawn is arbitrary. */
module Box {
  import opened Wrappers
  import opened Store
  import opened Premium

  datatype BoxItem = BoxItem(kind: int, id: int, rarity: int, max: int, drew: int)

  const POOL_MAX := 50
  const POOL_MIN := 5
  const ITEM_MAX := 10
  const FALLBACK := BoxItem(5, 100001, 10, 20, 0)

  // ---- One draw ----

  /** Copies of a row still in the box. */
  function Left(b: BoxItem): nat {
    if b.max > b.drew then b.max - b.drew else 0
  }

  function Remaining(items: seq<BoxItem>): nat {
    if items == [] then 0 else Remaining(items[..|items| - 1]) + Left(items[|items| - 1])
  }

  /** The rows picked can be picked from the box: none more often than copies are left. */
  predicate Fits(items: seq<BoxItem>, picks: seq<nat>) {
    && (forall p :: p in picks ==> p < |items|)
    && (forall k :: 0 <= k < |items| ==> multiset(picks)[k] <= Left(items[k]))
  }

  function AfterPicks(items: seq<BoxItem>, picks: seq<nat>): seq<BoxItem> {
    seq(|items|, k requires 0 <= k < |items| => items[k].(drew := items[k].drew + multiset(picks)[k]))
  }

  function Drawn(items: seq<BoxItem>, picks: seq<nat>): seq<Item>
    requires forall p :: p in picks ==> p < |items|
  {
    seq(|picks|, i requires 0 <= i < |picks| =>
      assert picks[i] in picks; Item(items[picks[i]].kind, items[picks[i]].id, items[picks[i]].rarity, 0))
  }

  /** Copies listed and copies picked together are the copies the box had. */
  predicate Tally(items: seq<BoxItem>, available: seq<nat>, picks: seq<nat>) {
    && (forall p :: p in available ==> p < |items|)
    && (forall p :: p in picks ==> p < |items|)
    && (forall k :: 0 <= k < |items| ==> multiset(available)[k] + multiset(picks)[k] == Left(items[k]))
    && |available| + |picks| == Remaining(items)
  }

  lemma {:induction false} TallyPick(items: seq<BoxItem>, available: seq<nat>, picks: seq<nat>, pick: nat)
    requires Tally(items, available, picks) && pick < |available|
    ensures Tally(items, available[..pick] + available[pick + 1..], picks + [available[pick]])
  {
    var row := available[pick];
    var rest := available[..pick] + available[pick + 1..];
    assert available == available[..pick] + [row] + available[pick + 1..];
    assert multiset(available) == multiset(rest) + multiset{row};
    assert multiset(picks + [row]) == multiset(picks) + multiset{row};
    forall p | p in rest ensures p < |items| {
      assert p in available;
    }
    assert row in available;
  }

  lemma {:induction false} AfterPick(items: seq<BoxItem>, picks: seq<nat>, row: nat)
    requires row < |items| && forall p :: p in picks ==> p < |items|
    ensures var after := AfterPicks(items, picks);
            AfterPicks(items, picks + [row]) == after[row := after[row].(drew := after[row].drew + 1)]
    ensures forall p :: p in picks + [row] ==> p < |items|
    ensures var b := AfterPicks(items, picks)[row];
            Drawn(items, picks + [row]) == Drawn(items, picks) + [Item(b.kind, b.id, b.rarity, 0)]
  {
    assert multiset(picks + [row]) == multiset(picks) + multiset{row};
  }

  /** DrawBox: the rows still in the box are listed once per copy, and a picked entry is cut out of the list. */
  method DrawBox(items: array<BoxItem>, count: nat) returns (result: seq<Item>, ghost picks: seq<nat>)
    modifies items
    ensures Fits(old(items[..]), picks) && |picks| == Min(count, Remaining(old(items[..])))
    ensures items[..] == AfterPicks(old(items[..]), picks)
    ensures result == Drawn(old(items[..]), picks)
  {
    hide Left, AfterPicks, Drawn, Remaining;
    ghost var before := items[..];
    var available: seq<nat> := ListAvailable(items);
    result := [];
    picks := [];
    Untouched(before);
    while |result| < count && |available| > 0
      invariant Tally(before, available, picks)
      invariant |picks| == |result| <= count
      invariant items[..] == AfterPicks(before, picks)
      invariant result == Drawn(before, picks)
    {
      hide Tally;
      var pick :| 0 <= pick < |available|;
      var row := available[pick];
      TallyPick(before, available, picks, pick);
      RowListed(before, available, picks, pick);
      AfterPick(before, picks, row);
      var item := items[row];
      result := result + [Item(item.kind, item.id, item.rarity, 0)];
      items[row] := item.(drew := item.drew + 1);
      available := available[..pick] + available[pick + 1..];
      picks := picks + [row];
    }
  }

  lemma Untouched(items: seq<BoxItem>)
    ensures AfterPicks(items, []) == items
    ensures Drawn(items, []) == []
  {
  }

  lemma {:induction false} RowListed(items: seq<BoxItem>, available: seq<nat>, picks: seq<nat>, pick: nat)
    requires Tally(items, available, picks) && pick < |available|
    ensures available[pick] < |items| && forall p :: p in picks ==> p < |items|
  {
    assert available[pick] in available;
  }

  method ListAvailable(items: array<BoxItem>) returns (available: seq<nat>)
    ensures forall p :: p in available ==> p < items.Length
    ensures forall k :: 0 <= k < items.Length ==> multiset(available)[k] == Left(items[k])
    ensures |available| == Remaining(items[..])
  {
    available := [];
    for i := 0 to items.Length
      invariant forall p :: p in available ==> p < i
      invariant forall k :: 0 <= k < i ==> multiset(available)[k] == Left(items[k])
      invariant |available| == Remaining(items[..i])
    {
      var remaining := items[i].max - items[i].drew;
      ghost var start: seq<nat> := available;
      assert i !in start;
      var n := 0;
      while n < remaining
        invariant 0 <= n && (n <= remaining || n == 0)
        invariant |available| == |start| + n
        invariant forall p :: p in available ==> p <= i
        invariant multiset(available)[i] == n
        invariant forall k :: 0 <= k < i ==> multiset(available)[k] == multiset(start)[k]
      {
        available := available + [i];
        n := n + 1;
      }
      assert items[..i + 1][..i] == items[..i];
    }
    assert items[..items.Length] == items[..];
  }

  // ---- The banner's box ----

  function Row(m: Item): BoxItem {
    BoxItem(m.kind, m.id, m.rarity, ITEM_MAX, 0)
  }

  /** At most 50 materials, with a stand-in item when there are fewer than 5. */
  function BoxPool(materials: seq<Item>): seq<BoxItem> {
    var n := if |materials| < POOL_MAX then |materials| else POOL_MAX;
    seq(n, i requires 0 <= i < n => Row(materials[i])) + if n < POOL_MIN then [FALLBACK] else []
  }

  method BuildBoxPool(materials: seq<Item>) returns (items: seq<BoxItem>)
    ensures items == BoxPool(materials)
    ensures var n := Min(|materials|, 50);
            && |items| == (if n < 5 then n + 1 else n)
            && (forall k :: 0 <= k < n ==> items[k] == BoxItem(materials[k].kind, materials[k].id, materials[k].rarity, 10, 0))
            && (n < 5 ==> items[n] == BoxItem(5, 100001, 10, 20, 0))
  {
    items := [];
    for i := 0 to |materials|
      invariant i < POOL_MAX && |items| == i
      invariant forall k :: 0 <= k < i ==> items[k] == Row(materials[k])
    {
      var mat := materials[i];
      items := items + [BoxItem(mat.kind, mat.id, mat.rarity, ITEM_MAX, 0)];
      if |items| >= POOL_MAX {
        break;
      }
    }
    if |items| < POOL_MIN {
      items := items + [FALLBACK];
    }
  }

  /** The pool with the banner's counts; rows of one id share one count. */
  function Loaded(pool: seq<BoxItem>, counts: map<int, int>): seq<BoxItem> {
    seq(|pool|, i requires 0 <= i < |pool| => pool[i].(drew := GetOr(counts, pool[i].id, 0)))
  }

  function Bumped(counts: map<int, int>, ids: seq<int>): map<int, int> {
    if ids == [] then counts
    else
      var n := |ids| - 1;
      var before := Bumped(counts, ids[..n]);
      before[ids[n] := GetOr(before, ids[n], 0) + 1]
  }

  function Ids(items: seq<Item>): seq<int> {
    seq(|items|, i requires 0 <= i < |items| => items[i].id)
  }

  const MEDAL_CAP := 9999

  function Stepped(step: int, loops: int, maxStep: int): (int, int) {
    if step + 1 > maxStep then (1, loops + 1) else (step + 1, loops)
  }

  function Capped(medals: int): int {
    if medals > MEDAL_CAP then MEDAL_CAP else medals
  }

  /** Step and loop of a new banner after n step-up draws. */
  function StepsAfter(n: nat, maxStep: int): (int, int) {
    if n == 0 then (0, 0)
    else
      var before := StepsAfter(n - 1, maxStep);
      Stepped(before.0, before.1, maxStep)
  }

  /** Steps run 1, 2, .., maxStep and around again, and the loop count is the number of rounds completed. */
  lemma {:induction false} StepsCycle(n: nat, maxStep: int)
    requires n >= 1 && maxStep >= 1
    ensures StepsAfter(n, maxStep) == ((n - 1) % maxStep + 1, (n - 1) / maxStep)
  {
    if n == 1 {
      assert StepsAfter(0, maxStep) == (0, 0);
    } else {
      StepsCycle(n - 1, maxStep);
      NextStep(n - 2, maxStep);
      hide Stepped;
      assert n - 1 - 1 == n - 2 && n - 2 + 1 == n - 1;
    }
  }

  lemma NextStep(k: nat, m: int)
    requires m >= 1
    ensures Stepped(k % m + 1, k / m, m) == ((k + 1) % m + 1, (k + 1) / m)
  {
    NextInCycle(k, m);
  }

  lemma NextInCycle(k: nat, m: int)
    requires m >= 1
    ensures k % m + 1 == m ==> (k + 1) % m == 0 && (k + 1) / m == k / m + 1
    ensures k % m + 1 < m ==> (k + 1) % m == k % m + 1 && (k + 1) / m == k / m
  {
    var q, r := k / m, k % m;
    assert k == m * q + r;
    if r + 1 == m {
      assert k + 1 == m * (q + 1);
      DivModOf(k + 1, m, q + 1, 0);
    } else {
      DivModOf(k + 1, m, q, r + 1);
    }
  }

  lemma DivModOf(k: int, m: int, q: int, r: int)
    requires m >= 1 && k == m * q + r && 0 <= r < m
    ensures k / m == q && k % m == r
  {
    var d := k / m - q;
    assert k == m * (k / m) + k % m;
    assert m * d == r - k % m;
    Multiples(m, d);
  }

  lemma Multiples(m: int, d: int)
    requires m >= 1
    ensures d >= 1 ==> m * d >= m
    ensures d <= -1 ==> m * d <= -m
  {
  }

  function Sum(ds: seq<nat>): nat {
    if ds == [] then 0 else Sum(ds[..|ds| - 1]) + ds[|ds| - 1]
  }

  function MedalsAfter(ds: seq<nat>): int {
    if ds == [] then 0 else Capped(MedalsAfter(ds[..|ds| - 1]) + ds[|ds| - 1])
  }

  /** Capping after every draw is capping the total once. */
  lemma {:induction false} MedalsCapTotal(ds: seq<nat>)
    ensures MedalsAfter(ds) == Min(Sum(ds), 9999)
  {
    if ds != [] {
      MedalsCapTotal(ds[..|ds| - 1]);
    }
  }

  class Banner {
    var boxDrewCounts: map<int, int>
    var boxNumber: int
    var stepNumber: int
    var loopCount: int
    var medalCount: int
    var drawCount: int

    constructor ()
      ensures boxDrewCounts == map[] && boxNumber == stepNumber == loopCount == medalCount == drawCount == 0
    {
      boxDrewCounts, boxNumber, stepNumber, loopCount, medalCount, drawCount := map[], 0, 0, 0, 0, 0;
    }

    method DrawFromBox(materials: seq<Item>, count: nat) returns (result: seq<Item>, ghost picks: seq<nat>)
      modifies this`boxDrewCounts
      ensures var box := Loaded(BoxPool(materials), old(boxDrewCounts));
              && Fits(box, picks) && |picks| == Min(count, Remaining(box))
              && result == Drawn(box, picks)
              && boxDrewCounts == Bumped(old(boxDrewCounts), Ids(result))
    {
      hide Fits, Remaining, Drawn, AfterPicks, BoxPool, Row;
      var pool := BuildBoxPool(materials);
      var boxItems := new BoxItem[|pool|](i requires 0 <= i < |pool| => pool[i]);
      for i := 0 to boxItems.Length
        invariant boxDrewCounts == old(boxDrewCounts)
        invariant forall k :: 0 <= k < boxItems.Length ==>
          boxItems[k] == if k < i then pool[k].(drew := GetOr(boxDrewCounts, pool[k].id, 0)) else pool[k]
      {
        boxItems[i] := boxItems[i].(drew := GetOr(boxDrewCounts, boxItems[i].id, 0));
      }
      assert boxItems[..] == Loaded(pool, boxDrewCounts);
      result, picks := DrawBox(boxItems, count);
      for i := 0 to |result|
        invariant boxDrewCounts == Bumped(old(boxDrewCounts), Ids(result)[..i])
      {
        var id := result[i].id;
        assert Ids(result)[..i + 1][..i] == Ids(result)[..i];
        boxDrewCounts := boxDrewCounts[id := GetOr(boxDrewCounts, id, 0) + 1];
      }
      assert Ids(result)[..|result|] == Ids(result);
    }

    /** The counters of HandleDraw, after the items are drawn. */
    method CountDraws(stepUp: bool, maxStep: int, medals: bool, draws: int) returns (medalBonus: int)
      modifies this`stepNumber, this`loopCount, this`medalCount, this`drawCount
      ensures (stepNumber, loopCount) == if stepUp then Stepped(old(stepNumber), old(loopCount), maxStep)
                                         else (old(stepNumber), old(loopCount))
      ensures medalCount == if medals then Min(old(medalCount) + draws, 9999) else old(medalCount)
      ensures drawCount == old(drawCount) + draws && medalBonus == if medals then draws else 0
    {
      if stepUp {
        stepNumber := stepNumber + 1;
        if stepNumber > maxStep {
          stepNumber := 1;
          loopCount := loopCount + 1;
        }
      }
      medalBonus := 0;
      if medals {
        medalBonus := draws;
        medalCount := medalCount + medalBonus;
        if medalCount > MEDAL_CAP {
          medalCount := MEDAL_CAP;
        }
      }
      drawCount := drawCount + draws;
    }

    method ResetBox()
      modifies this`boxDrewCounts, this`boxNumber
      ensures boxDrewCounts == map[] && boxNumber == old(boxNumber) + 1
    {
      boxDrewCounts := map[];
      boxNumber := boxNumber + 1;
    }
  }

  // ---- Runs of draws and resets ----

  datatype Event = Draw(count: nat, picks: seq<nat>) | Reset

  function IdsOf(pool: seq<BoxItem>, picks: seq<nat>): seq<int>
    requires forall p :: p in picks ==> p < |pool|
  {
    seq(|picks|, i requires 0 <= i < |picks| => assert picks[i] in picks; pool[picks[i]].id)
  }

  /** A draw takes what the box with the counts of the moment allows, as DrawFromBox does. */
  predicate CanHappen(pool: seq<BoxItem>, counts: map<int, int>, e: Event) {
    e.Draw? ==> Fits(Loaded(pool, counts), e.picks) && |e.picks| == Min(e.count, Remaining(Loaded(pool, counts)))
  }

  function CountsOn(pool: seq<BoxItem>, counts: map<int, int>, e: Event): map<int, int>
    requires CanHappen(pool, counts, e)
  {
    match e
    case Draw(_, picks) => Bumped(counts, IdsOf(pool, picks))
    case Reset => map[]
  }

  predicate Possible(pool: seq<BoxItem>, es: seq<Event>)
    decreases |es|, 0
  {
    es == [] || (Possible(pool, es[..|es| - 1]) && CanHappen(pool, CountsOf(pool, es[..|es| - 1]), es[|es| - 1]))
  }

  /** The counts a new banner has after the events. */
  function CountsOf(pool: seq<BoxItem>, es: seq<Event>): map<int, int>
    requires Possible(pool, es)
    decreases |es|, 1
  {
    if es == [] then map[] else CountsOn(pool, CountsOf(pool, es[..|es| - 1]), es[|es| - 1])
  }

  /** Ids drawn since the last reset. */
  function SinceReset(pool: seq<BoxItem>, es: seq<Event>): seq<int>
    requires Possible(pool, es)
  {
    if es == [] || es[|es| - 1].Reset? then []
    else SinceReset(pool, es[..|es| - 1]) + IdsOf(pool, es[|es| - 1].picks)
  }

  predicate Distinct(pool: seq<BoxItem>) {
    forall i, j :: 0 <= i < j < |pool| ==> pool[i].id != pool[j].id
  }

  lemma {:induction false} BumpedAdds(counts: map<int, int>, ids: seq<int>, id: int)
    ensures GetOr(Bumped(counts, ids), id, 0) == GetOr(counts, id, 0) + multiset(ids)[id]
  {
    if ids != [] {
      BumpedAdds(counts, ids[..|ids| - 1], id);
      assert ids == ids[..|ids| - 1] + [ids[|ids| - 1]];
    }
  }

  /** The stored count of every id is the number of it drawn since the last reset, whatever the pool. */
  lemma {:induction false} CountsAreDraws(pool: seq<BoxItem>, es: seq<Event>, id: int)
    requires Possible(pool, es)
    ensures GetOr(CountsOf(pool, es), id, 0) == multiset(SinceReset(pool, es))[id]
  {
    if es != [] && es[|es| - 1].Draw? {
      var n := |es| - 1;
      CountsAreDraws(pool, es[..n], id);
      BumpedAdds(CountsOf(pool, es[..n]), IdsOf(pool, es[n].picks), id);
    }
  }

  /** With distinct ids, a row's id is drawn as often as the row. */
  lemma {:induction false} DistinctIds(pool: seq<BoxItem>, picks: seq<nat>, k: nat)
    requires Distinct(pool) && k < |pool| && forall p :: p in picks ==> p < |pool|
    ensures multiset(IdsOf(pool, picks))[pool[k].id] == multiset(picks)[k]
  {
    if picks != [] {
      var n := |picks| - 1;
      assert picks == picks[..n] + [picks[n]];
      assert picks[n] in picks && forall p :: p in picks[..n] ==> p in picks;
      DistinctIds(pool, picks[..n], k);
      assert IdsOf(pool, picks) == IdsOf(pool, picks[..n]) + [pool[picks[n]].id];
    }
  }

  /** With distinct ids no count ever passes its maximum. */
  lemma {:induction false} CountsStayInBox(pool: seq<BoxItem>, es: seq<Event>, k: nat)
    requires Possible(pool, es) && Distinct(pool) && k < |pool| && pool[k].max >= 0
    ensures GetOr(CountsOf(pool, es), pool[k].id, 0) <= pool[k].max
  {
    if es != [] && es[|es| - 1].Draw? {
      var n := |es| - 1;
      CountsStayInBox(pool, es[..n], k);
      DistinctIds(pool, es[n].picks, k);
      BumpedAdds(CountsOf(pool, es[..n]), IdsOf(pool, es[n].picks), pool[k].id);
    }
  }

  // ---- What is left in the box ----

  lemma {:induction false} OneTaken(items: seq<BoxItem>, row: nat)
    requires row < |items| && Left(items[row]) > 0
    ensures Remaining(items[row := items[row].(drew := items[row].drew + 1)]) == Remaining(items) - 1
  {
    var n := |items| - 1;
    var after := items[row := items[row].(drew := items[row].drew + 1)];
    if row < n {
      OneTaken(items[..n], row);
      assert after[..n] == items[..n][row := items[row].(drew := items[row].drew + 1)];
    } else {
      assert after[..n] == items[..n];
    }
  }

  /** Every pick takes one copy out of the box. */
  lemma {:induction false} PicksTake(items: seq<BoxItem>, picks: seq<nat>)
    requires Fits(items, picks)
    ensures Remaining(AfterPicks(items, picks)) == Remaining(items) - |picks|
  {
    if picks == [] {
      Untouched(items);
    } else {
      var n := |picks| - 1;
      assert picks == picks[..n] + [picks[n]];
      assert picks[n] in picks && forall p :: p in picks[..n] ==> p in picks;
      PicksTake(items, picks[..n]);
      AfterPick(items, picks[..n], picks[n]);
      OneTaken(AfterPicks(items, picks[..n]), picks[n]);
    }
  }

  /** With distinct ids, the box loaded after a draw is the box the draw left. */
  lemma {:induction false} ReloadMatches(pool: seq<BoxItem>, counts: map<int, int>, picks: seq<nat>)
    requires Distinct(pool) && forall p :: p in picks ==> p < |pool|
    ensures Loaded(pool, Bumped(counts, IdsOf(pool, picks))) == AfterPicks(Loaded(pool, counts), picks)
  {
    hide Bumped, IdsOf;
    forall k | 0 <= k < |pool|
      ensures GetOr(Bumped(counts, IdsOf(pool, picks)), pool[k].id, 0) == GetOr(counts, pool[k].id, 0) + multiset(picks)[k]
    {
      BumpedAdds(counts, IdsOf(pool, picks), pool[k].id);
      DistinctIds(pool, picks, k);
    }
  }

  /** With distinct ids, what is left and what was drawn since the last reset make up the full box. */
  lemma {:induction false} BoxConserved(pool: seq<BoxItem>, es: seq<Event>)
    requires Possible(pool, es) && Distinct(pool)
    ensures Remaining(Loaded(pool, CountsOf(pool, es))) + |SinceReset(pool, es)| == Remaining(Loaded(pool, map[]))
  {
    if es != [] && es[|es| - 1].Draw? {
      var n := |es| - 1;
      var counts := CountsOf(pool, es[..n]);
      BoxConserved(pool, es[..n]);
      assert Fits(Loaded(pool, counts), es[n].picks);
      ReloadMatches(pool, counts, es[n].picks);
      PicksTake(Loaded(pool, counts), es[n].picks);
    }
  }

  function Repeat(x: nat, n: nat): seq<nat> {
    if n == 0 then [] else Repeat(x, n - 1) + [x]
  }

  lemma {:induction false} RepeatCounts(x: nat, n: nat, y: nat)
    ensures |Repeat(x, n)| == n && multiset(Repeat(x, n))[y] == if x == y then n else 0
    ensures forall p :: p in Repeat(x, n) ==> p == x
  {
    if n > 0 {
      RepeatCounts(x, n - 1, y);
    }
  }

  lemma {:induction false} IdsOfRepeat(pool: seq<BoxItem>, picks: seq<nat>, id: int)
    requires forall p :: p in picks ==> p < |pool| && pool[p].id == id
    ensures multiset(IdsOf(pool, picks))[id] == |picks|
  {
    if picks != [] {
      var n := |picks| - 1;
      assert picks == picks[..n] + [picks[n]];
      assert picks[n] in picks && forall p :: p in picks[..n] ==> p in picks;
      IdsOfRepeat(pool, picks[..n], id);
      assert IdsOf(pool, picks) == IdsOf(pool, picks[..n]) + [id];
    }
  }

  /** All copies of two rows of a new box, one row after the other. */
  function AllOf(pool: seq<BoxItem>, i: nat, j: nat): (picks: seq<nat>)
    requires i < |pool| && j < |pool|
  {
    Repeat(i, if pool[i].max < 0 then 0 else pool[i].max) + Repeat(j, if pool[j].max < 0 then 0 else pool[j].max)
  }

  lemma {:induction false} AllOfFits(pool: seq<BoxItem>, i: nat, j: nat)
    requires i < j < |pool| && pool[i].max > 0 && pool[j].max > 0
    ensures var picks := AllOf(pool, i, j);
            && (forall p :: p in picks ==> p == i || p == j)
            && |picks| == pool[i].max + pool[j].max && Fits(Loaded(pool, map[]), picks)
  {
    var box := Loaded(pool, map[]);
    RepeatCounts(i, pool[i].max, i);
    RepeatCounts(j, pool[j].max, j);
    forall k | 0 <= k < |pool| ensures multiset(AllOf(pool, i, j))[k] <= Left(box[k]) {
      RepeatCounts(i, pool[i].max, k);
      RepeatCounts(j, pool[j].max, k);
    }
  }

  /** A new banner can make these picks in one draw. */
  lemma {:induction false} FirstDraw(pool: seq<BoxItem>, picks: seq<nat>)
    requires Fits(Loaded(pool, map[]), picks)
    ensures forall p :: p in picks ==> p < |pool|
    ensures var es := [Draw(|picks|, picks)]; Possible(pool, es) && CountsOf(pool, es) == Bumped(map[], IdsOf(pool, picks))
  {
    var es := [Draw(|picks|, picks)];
    assert es[..|es| - 1] == [];
    PicksTake(Loaded(pool, map[]), picks);
    hide AfterPicks, Bumped;
    assert Possible(pool, []) && CountsOf(pool, []) == map[];
    assert CanHappen(pool, map[], es[0]);
  }

  /** An id in two rows of the pool can be drawn past the maximum of either, straight from a new box. */
  lemma SharedIdOverdraws(pool: seq<BoxItem>, i: nat, j: nat) returns (es: seq<Event>)
    requires i < j < |pool| && pool[i].id == pool[j].id
    requires pool[i].max > 0 && pool[j].max > 0
    ensures Possible(pool, es)
    ensures GetOr(CountsOf(pool, es), pool[i].id, 0) == pool[i].max + pool[j].max
  {
    var picks := AllOf(pool, i, j);
    AllOfFits(pool, i, j);
    FirstDraw(pool, picks);
    es := [Draw(|picks|, picks)];
    hide AllOf, Fits, Possible, CountsOf, Bumped, IdsOf;
    BumpedAdds(map[], IdsOf(pool, picks), pool[i].id);
    IdsOfRepeat(pool, picks, pool[i].id);
  }

  /** No count can ever pass its maximum exactly when no id is in the pool twice. */
  lemma NeverOverdrawnExactly(pool: seq<BoxItem>)
    requires forall b :: b in pool ==> b.max > 0
    ensures Distinct(pool) <==>
      forall es, k :: Possible(pool, es) && 0 <= k < |pool| ==> GetOr(CountsOf(pool, es), pool[k].id, 0) <= pool[k].max
  {
    if Distinct(pool) {
      forall es, k | Possible(pool, es) && 0 <= k < |pool|
        ensures GetOr(CountsOf(pool, es), pool[k].id, 0) <= pool[k].max
      {
        CountsStayInBox(pool, es, k);
      }
    } else {
      var i, j :| 0 <= i < j < |pool| && pool[i].id == pool[j].id;
      var es := SharedIdOverdraws(pool, i, j);
    }
  }

  /** The materials that enter the box. */
  function Taken(materials: seq<Item>): seq<Item> {
    if |materials| < POOL_MAX then materials else materials[..POOL_MAX]
  }

  /** Distinct ids among the materials taken, and the stand-in item not one of them when it is added. */
  predicate BoxIdsApart(materials: seq<Item>) {
    && (forall i, j :: 0 <= i < j < |Taken(materials)| ==> materials[i].id != materials[j].id)
    && (|materials| < POOL_MIN ==> forall i :: 0 <= i < |materials| ==> materials[i].id != FALLBACK.id)
  }

  lemma BannerPoolExactly(materials: seq<Item>)
    ensures Distinct(BoxPool(materials)) <==> BoxIdsApart(materials)
    ensures forall b :: b in BoxPool(materials) ==> b.max > 0
  {
    var pool, n := BoxPool(materials), |Taken(materials)|;
    assert forall i :: 0 <= i < n ==> pool[i].id == materials[i].id;
    if Distinct(pool) {
      if |materials| < POOL_MIN {
        assert pool[n] == FALLBACK;
        forall i | 0 <= i < |materials| ensures materials[i].id != FALLBACK.id {
          assert pool[i].id != pool[n].id;
        }
      }
      forall i, j | 0 <= i < j < n ensures materials[i].id != materials[j].id {
        assert pool[i].id != pool[j].id;
      }
    }
  }

  /** A banner's counts stay within their maxima on every run of draws and resets exactly when the materials it takes
      have distinct ids and the stand-in item, when added, is none of them. */
  lemma BannerNeverOverdrawnExactly(materials: seq<Item>)
    ensures BoxIdsApart(materials) <==>
      forall es, k :: Possible(BoxPool(materials), es) && 0 <= k < |BoxPool(materials)| ==>
        GetOr(CountsOf(BoxPool(materials), es), BoxPool(materials)[k].id, 0) <= BoxPool(materials)[k].max
  {
    hide BoxPool, BoxIdsApart, Distinct, Possible, CountsOf;
    BannerPoolExactly(materials);
    NeverOverdrawnExactly(BoxPool(materials));
  }

  /** The stand-in item sold as the only material is in the box twice: thirty can be drawn, ten or twenty allowed. */
  lemma StandInOverdraws(rarity: int) returns (es: seq<Event>)
    ensures var pool := BoxPool([Item(FALLBACK.kind, FALLBACK.id, rarity, 0)]);
            && |pool| == 2 && pool[0].max == 10 && pool[1].max == 20
            && Possible(pool, es) && GetOr(CountsOf(pool, es), FALLBACK.id, 0) == 30
  {
    var pool := BoxPool([Item(FALLBACK.kind, FALLBACK.id, rarity, 0)]);
    es := SharedIdOverdraws(pool, 0, 1);
  }
}
