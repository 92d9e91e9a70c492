/** stamina.go: stamina in thousandths, regenerated lazily, one milli-unit every 180 ms. */
module Stamina {
  import opened Wrappers
  import opened Store

  const RECOVERY_DIVISOR := 180

  function Settled(st: Status, maxMilli: int, now: int): Status {
    var elapsed := now - st.staminaUpdated;
    if st.staminaMilli >= maxMilli || elapsed <= 0 then st
    else st.(staminaMilli := Min(st.staminaMilli + elapsed / RECOVERY_DIVISOR, maxMilli), staminaUpdated := now)
  }

  function Consumed(st: Status, costUnits: int, maxMilli: int, now: int): Status {
    var s := Settled(st, maxMilli, now);
    s.(staminaMilli := Max(s.staminaMilli - costUnits * 1000, 0), staminaUpdated := now)
  }

  function Recovered(st: Status, milli: int, maxMilli: int, now: int): Status {
    var s := Settled(st, maxMilli, now);
    s.(staminaMilli := s.staminaMilli + milli, staminaUpdated := now)
  }

  method SettleStamina(user: UserState, maxMilli: int, now: int)
    modifies user`status
    ensures user.status == Settled(old(user.status), maxMilli, now)
  {
    var stored := user.status.staminaMilli;
    if stored >= maxMilli {
      return;
    }
    var elapsed := now - user.status.staminaUpdated;
    if elapsed <= 0 {
      return;
    }
    var regen := elapsed / RECOVERY_DIVISOR;
    user.status := user.status.(staminaMilli := Min(stored + regen, maxMilli), staminaUpdated := now);
  }

  method ConsumeStamina(user: UserState, costUnits: int, maxMilli: int, now: int)
    modifies user`status
    ensures user.status == Consumed(old(user.status), costUnits, maxMilli, now)
  {
    SettleStamina(user, maxMilli, now);
    user.status := user.status.(staminaMilli := Max(user.status.staminaMilli - costUnits * 1000, 0));
    user.status := user.status.(staminaUpdated := now);
  }

  method RecoverStamina(user: UserState, milli: int, maxMilli: int, now: int)
    modifies user`status
    ensures user.status == Recovered(old(user.status), milli, maxMilli, now)
  {
    SettleStamina(user, maxMilli, now);
    user.status := user.status.(staminaMilli := user.status.staminaMilli + milli, staminaUpdated := now);
  }

  method ReplenishStamina(user: UserState, maxMilli: int, now: int)
    modifies user`status
    ensures user.status == old(user.status).(staminaMilli := maxMilli, staminaUpdated := now)
  {
    user.status := user.status.(staminaMilli := maxMilli, staminaUpdated := now);
  }

  // ---- Polling ----

  /** Settling at each of the times in turn. */
  function Polled(st: Status, maxMilli: int, times: seq<int>): Status
    decreases |times|
  {
    if times == [] then st else Polled(Settled(st, maxMilli, times[0]), maxMilli, times[1..])
  }

  ghost predicate NonDecreasing(times: seq<int>) {
    forall i, j :: 0 <= i < j < |times| ==> times[i] <= times[j]
  }

  /** Settling keeps a value within bounds: it never falls and never passes the maximum. */
  lemma SettledBounds(st: Status, maxMilli: int, now: int)
    ensures var v := Settled(st, maxMilli, now).staminaMilli;
            st.staminaMilli <= v <= Max(st.staminaMilli, maxMilli)
  {
  }

  /** One settling on the way costs at most one milli-unit, the rounding it forgets. */
  lemma SettledTwice(st: Status, maxMilli: int, a: int, b: int)
    requires a <= b
    ensures var twice, once := Settled(Settled(st, maxMilli, a), maxMilli, b), Settled(st, maxMilli, b);
            once.staminaMilli - 1 <= twice.staminaMilli <= once.staminaMilli
  {
    var x, y := a - st.staminaUpdated, b - a;
    if x > 0 && y > 0 {
      assert x / RECOVERY_DIVISOR + y / RECOVERY_DIVISOR
             <= (x + y) / RECOVERY_DIVISOR
             <= x / RECOVERY_DIVISOR + y / RECOVERY_DIVISOR + 1;
    }
  }

  /** Polling n times gives at most what settling once at the end gives and falls short by at most
      n - 1 milli-units; it never lowers the value nor pushes it past the maximum. */
  lemma {:induction false} PollingLosesLittle(st: Status, maxMilli: int, times: seq<int>)
    requires times != [] && NonDecreasing(times)
    ensures var polled, once := Polled(st, maxMilli, times), Settled(st, maxMilli, times[|times| - 1]);
            once.staminaMilli - (|times| - 1) <= polled.staminaMilli <= once.staminaMilli
    ensures var v := Polled(st, maxMilli, times).staminaMilli;
            st.staminaMilli <= v <= Max(st.staminaMilli, maxMilli)
    decreases |times|
  {
    hide Settled;
    var next := Settled(st, maxMilli, times[0]);
    SettledBounds(st, maxMilli, times[0]);
    if |times| > 1 {
      assert times[1..][|times| - 2] == times[|times| - 1];
      PollingLosesLittle(next, maxMilli, times[1..]);
      SettledTwice(st, maxMilli, times[0], times[|times| - 1]);
    }
  }

  function Every179(start: int, n: nat): (times: seq<int>)
    ensures |times| == n && forall i :: 0 <= i < n ==> times[i] == start + 179 * (i + 1)
  {
    seq(n, i => start + 179 * (i + 1))
  }

  /** The bound is met: polling every 179 ms never regenerates anything, while one settling at the end
      would have given n - 1 milli-units for every n up to 180. */
  lemma {:induction false} PollingCanStall(st: Status, maxMilli: int, n: nat)
    requires st.staminaMilli + n <= maxMilli
    ensures Polled(st, maxMilli, Every179(st.staminaUpdated, n)).staminaMilli == st.staminaMilli
    ensures 1 <= n <= 180 ==>
              Settled(st, maxMilli, st.staminaUpdated + 179 * n).staminaMilli == st.staminaMilli + n - 1
    decreases n
  {
    if n > 0 {
      var times := Every179(st.staminaUpdated, n);
      var next := Settled(st, maxMilli, times[0]);
      assert times[1..] == Every179(times[0], n - 1);
      PollingCanStall(next, maxMilli, n - 1);
    }
  }
}
