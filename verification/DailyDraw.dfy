/** The daily reward draw of gacha/handler.go. */
module DailyDraw {
  import opened Wrappers
  import opened Premium

  const DEFAULT_LIMIT := 5

  datatype Clamp = Clamp(drawn: int, newCount: int, reset: bool)

  function ClampDaily(lastDate: int, todayStart: int, currentCount: int, maxCount: int, requested: int): Clamp {
    var reset := lastDate < todayStart;
    var current := if reset then 0 else currentCount;
    var remaining := maxCount - current;
    if remaining <= 0 then Clamp(0, current, reset)
    else
      var drawn := if requested > remaining then remaining else requested;
      Clamp(drawn, current + drawn, reset)
  }

  datatype Daily = Daily(lastDate: int, count: int)

  /** A call of the reward draw: its clock, the start of its day and the number asked for. */
  datatype Call = Call(now: int, todayStart: int, requested: int)

  function Limit(configured: int): int {
    if configured <= 0 then DEFAULT_LIMIT else configured
  }

  function After(d: Daily, call: Call, limit: int): Daily {
    var c := ClampDaily(d.lastDate, call.todayStart, d.count, limit, call.requested);
    if c.drawn <= 0 then d else Daily(call.now, c.newCount)
  }

  function DrawnBy(d: Daily, call: Call, limit: int): nat {
    var c := ClampDaily(d.lastDate, call.todayStart, d.count, limit, call.requested);
    if c.drawn <= 0 then 0 else c.drawn
  }

  /** Rows of the materials, with the character dropped. */
  ghost predicate Sampled(items: seq<Item>, materials: seq<Item>) {
    forall x :: x in items ==> exists m :: m in materials && x == m.(character := 0)
  }

  function ItemsFor(materials: seq<Item>, n: nat): nat {
    if materials == [] then 0 else n
  }

  method DrawReward(materials: seq<Item>, count: nat) returns (result: seq<Item>)
    ensures |result| == ItemsFor(materials, count) && Sampled(result, materials)
  {
    result := [];
    if |materials| == 0 {
      return;
    }
    for i := 0 to count
      invariant |result| == i && Sampled(result, materials)
    {
      var m := Choose(materials);
      result := result + [Item(m.kind, m.id, m.rarity, 0)];
    }
  }

  class RewardGacha {
    var lastRewardDrawDate: int
    var todaysCurrentDrawCount: int
    var dailyMaxCount: int
    var rewardAvailable: bool

    ghost function State(): Daily
      reads this
    {
      Daily(lastRewardDrawDate, todaysCurrentDrawCount)
    }

    /** None is the error that the limit is reached; otherwise the items drawn. Without materials none are drawn,
        yet the day's count rises all the same. */
    method HandleRewardDraw(materials: seq<Item>, configured: int, count: int, nowMillis: int, todayStart: int)
      returns (items: Option<seq<Item>>)
      modifies this
      ensures State() == After(old(State()), Call(nowMillis, todayStart, count), Limit(configured))
      ensures var n := DrawnBy(old(State()), Call(nowMillis, todayStart, count), Limit(configured));
              && (items.None? <==> n == 0)
              && (items.Some? ==> |items.value| == ItemsFor(materials, n) && Sampled(items.value, materials))
      ensures items.Some? ==> dailyMaxCount == (if configured <= 0 then 5 else configured) && rewardAvailable == (todaysCurrentDrawCount < dailyMaxCount)
      ensures items.None? ==> dailyMaxCount == old(dailyMaxCount) && rewardAvailable == old(rewardAvailable)
    {
      var maxCount := configured;
      if maxCount <= 0 {
        maxCount := DEFAULT_LIMIT;
      }
      var currentCount := todaysCurrentDrawCount;
      if lastRewardDrawDate < todayStart {
        currentCount := 0;
      }
      var remaining := maxCount - currentCount;
      if remaining <= 0 {
        return None;
      }
      var requested := count;
      if requested > remaining {
        requested := remaining;
      }
      if requested <= 0 {
        return None;
      }
      var drawn := DrawReward(materials, requested);
      todaysCurrentDrawCount := currentCount + requested;
      dailyMaxCount := maxCount;
      lastRewardDrawDate := nowMillis;
      rewardAvailable := todaysCurrentDrawCount < maxCount;
      items := Some(drawn);
    }
  }

  // ---- A day of calls ----

  predicate OneDay(calls: seq<Call>, start: int) {
    forall c :: c in calls ==> c.todayStart == start && start <= c.now
  }

  function StateAfter(d: Daily, calls: seq<Call>, limit: int): Daily {
    if calls == [] then d else After(StateAfter(d, calls[..|calls| - 1], limit), calls[|calls| - 1], limit)
  }

  function TotalDrawn(d: Daily, calls: seq<Call>, limit: int): nat {
    if calls == [] then 0
    else TotalDrawn(d, calls[..|calls| - 1], limit)
         + DrawnBy(StateAfter(d, calls[..|calls| - 1], limit), calls[|calls| - 1], limit)
  }

  function TotalAsked(calls: seq<Call>): nat {
    if calls == [] then 0
    else TotalAsked(calls[..|calls| - 1]) + var r := calls[|calls| - 1].requested; if r <= 0 then 0 else r
  }

  /** What was drawn today before. */
  function Today(d: Daily, start: int): int {
    if d.lastDate < start then 0 else d.count
  }

  /** What is drawn over a day is what was asked for, up to what the limit leaves, however it is asked for. */
  lemma {:induction false} DayDrawsUpToLimit(d: Daily, calls: seq<Call>, start: int, limit: int)
    requires OneDay(calls, start) && limit >= 1
    ensures var left := if limit > Today(d, start) then limit - Today(d, start) else 0;
            TotalDrawn(d, calls, limit) == if TotalAsked(calls) < left then TotalAsked(calls) else left
    ensures Today(StateAfter(d, calls, limit), start) == Today(d, start) + TotalDrawn(d, calls, limit)
  {
    if calls != [] {
      var n := |calls| - 1;
      assert calls[n] in calls && forall c :: c in calls[..n] ==> c in calls;
      DayDrawsUpToLimit(d, calls[..n], start, limit);
    }
  }

  /** The items a day's calls hand out. */
  function TotalItems(materials: seq<Item>, d: Daily, calls: seq<Call>, limit: int): nat {
    if calls == [] then 0
    else
      var n := |calls| - 1;
      TotalItems(materials, d, calls[..n], limit) + ItemsFor(materials, DrawnBy(StateAfter(d, calls[..n], limit), calls[n], limit))
  }

  lemma {:induction false} ItemsOrNone(materials: seq<Item>, d: Daily, calls: seq<Call>, limit: int)
    ensures TotalItems(materials, d, calls, limit) == ItemsFor(materials, TotalDrawn(d, calls, limit))
  {
    if calls != [] {
      ItemsOrNone(materials, d, calls[..|calls| - 1], limit);
    }
  }

  /** A day's items are as many as asked for, up to what the limit leaves, exactly when there are materials to draw or
      nothing was asked for or left. */
  lemma DayItemsExactly(materials: seq<Item>, d: Daily, calls: seq<Call>, start: int, limit: int)
    requires OneDay(calls, start) && limit >= 1
    ensures var due := Min(TotalAsked(calls), Max(limit - Today(d, start), 0));
            TotalItems(materials, d, calls, limit) == due <==> materials != [] || due == 0
  {
    DayDrawsUpToLimit(d, calls, start, limit);
    ItemsOrNone(materials, d, calls, limit);
  }
}
