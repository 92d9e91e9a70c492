/** Picking a row by weight: the cumulative loop of gacha/draw.go and the subtractive loop of
    service/costume.go. The random roll is an argument below the total weight. */
module Weighted {
  /** Weight of the rows before row i. */
  function Offset(ws: seq<nat>, i: nat): nat
    requires i <= |ws|
  {
    if i == 0 then 0 else Offset(ws, i - 1) + ws[i - 1]
  }

  function Total(ws: seq<nat>): nat {
    Offset(ws, |ws|)
  }

  /** The rolls of row i are those from the weight before it up to the weight through it. */
  predicate Selects(ws: seq<nat>, roll: nat, i: nat) {
    i < |ws| && Offset(ws, i) <= roll < Offset(ws, i + 1)
  }

  method TotalWeight(ws: seq<nat>) returns (total: nat)
    ensures total == Total(ws)
  {
    total := 0;
    for i := 0 to |ws|
      invariant total == Offset(ws, i)
    {
      total := total + ws[i];
    }
  }

  method PickCumulative(ws: seq<nat>, roll: nat) returns (row: nat)
    requires roll < Total(ws)
    ensures Selects(ws, roll, row)
  {
    var cumulative := 0;
    row := 0;
    while true
      invariant row < |ws| && cumulative == Offset(ws, row) <= roll
      decreases |ws| - row
    {
      cumulative := cumulative + ws[row];
      if roll < cumulative {
        return;
      }
      row := row + 1;
    }
  }

  /** The roll counts down instead; it is negative when its row is reached. */
  method PickSubtractive(ws: seq<nat>, roll: nat) returns (row: nat)
    requires roll < Total(ws)
    ensures Selects(ws, roll, row)
  {
    var left: int := roll;
    row := 0;
    while true
      invariant row < |ws| && 0 <= left == roll - Offset(ws, row)
      decreases |ws| - row
    {
      left := left - ws[row];
      if left < 0 {
        return;
      }
      row := row + 1;
    }
  }

  lemma {:induction false} OffsetsRise(ws: seq<nat>, i: nat, j: nat)
    requires i <= j <= |ws|
    ensures Offset(ws, i) <= Offset(ws, j)
    decreases j
  {
    if i < j {
      OffsetsRise(ws, i, j - 1);
    }
  }

  /** At most one row is selected, so both loops pick the same row for every roll. */
  lemma {:induction false} OneRow(ws: seq<nat>, roll: nat, i: nat, j: nat)
    requires Selects(ws, roll, i) && Selects(ws, roll, j)
    ensures i == j
  {
    if i < j {
      OffsetsRise(ws, i + 1, j);
    } else if j < i {
      OffsetsRise(ws, j + 1, i);
    }
  }

  /** Every roll below the total selects a row, and a row that is selected has weight. */
  lemma {:induction false} EveryRollSelects(ws: seq<nat>, roll: nat, n: nat)
    requires n <= |ws| && roll < Offset(ws, n)
    ensures exists i: nat :: i < n && Selects(ws, roll, i)
  {
    if roll < Offset(ws, n - 1) {
      EveryRollSelects(ws, roll, n - 1);
    } else {
      assert Selects(ws, roll, n - 1);
    }
  }

  function RollsOf(ws: seq<nat>, i: nat): set<nat> {
    set roll: nat | roll < Total(ws) && Selects(ws, roll, i)
  }

  function Range(lo: nat, n: nat): (s: set<nat>)
    ensures forall x :: x in s <==> lo <= x < lo + n
    ensures |s| == n
  {
    if n == 0 then {} else Range(lo, n - 1) + {lo + n - 1}
  }

  /** Exactly Weight(i) of the Total rolls select row i. */
  lemma {:induction false} ExactOdds(ws: seq<nat>, i: nat)
    requires i < |ws|
    ensures |RollsOf(ws, i)| == ws[i]
  {
    OffsetsRise(ws, i + 1, |ws|);
    assert Offset(ws, i + 1) == Offset(ws, i) + ws[i];
    forall x: nat ensures x in RollsOf(ws, i) <==> x in Range(Offset(ws, i), ws[i]) {
      var n := ws[i];
      assert x in Range(Offset(ws, i), n) <==> Offset(ws, i) <= x < Offset(ws, i) + n;
      assert x in RollsOf(ws, i) <==> x < Total(ws) && Selects(ws, x, i);
      assert Selects(ws, x, i) <==> Offset(ws, i) <= x < Offset(ws, i) + n;
    }
    assert RollsOf(ws, i) == Range(Offset(ws, i), ws[i]);
  }
}
