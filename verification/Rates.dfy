/** The premium rate table of gacha/draw.go and its boost for step-up banners. */
module Rates {
  import opened Wrappers

  const COSTUME := 1
  const WEAPON := 2

  const RARE := 20
  const SRARE := 30
  const SSRARE := 40

  datatype Tier = Tier(weight: int, kind: int, rarity: int)

  const PREMIUM: seq<Tier> := [
    Tier(200, COSTUME, SSRARE), Tier(300, WEAPON, SSRARE), Tier(500, COSTUME, SRARE),
    Tier(1000, WEAPON, SRARE), Tier(8000, WEAPON, RARE)]

  /** Conversion of a float to int drops the fraction, whatever the sign. */
  function Trunc(x: real): int {
    if x >= 0.0 then x.Floor else -(-x).Floor
  }

  predicate Top(t: Tier) {
    t.rarity >= SSRARE
  }

  function Extra(t: Tier, m: real): int {
    Trunc(t.weight as real * (m - 1.0))
  }

  function Sum(ts: seq<Tier>): int {
    if ts == [] then 0 else Sum(ts[..|ts| - 1]) + ts[|ts| - 1].weight
  }

  /** Extra weight of the top tiers. */
  function ExtraSum(ts: seq<Tier>, m: real): int {
    if ts == [] then 0
    else ExtraSum(ts[..|ts| - 1], m) + if Top(ts[|ts| - 1]) then Extra(ts[|ts| - 1], m) else 0
  }

  /** Weight of the other tiers. */
  function OtherSum(ts: seq<Tier>): int {
    if ts == [] then 0 else OtherSum(ts[..|ts| - 1]) + if Top(ts[|ts| - 1]) then 0 else ts[|ts| - 1].weight
  }

  function Others(ts: seq<Tier>): nat {
    if ts == [] then 0 else Others(ts[..|ts| - 1]) + if Top(ts[|ts| - 1]) then 0 else 1
  }

  /** A lesser tier's weight after giving up its share of the extra, at least 1. */
  function Reduced(w: int, extra: int, others: int): int
    requires others > 0
  {
    var left := w - Quotient(extra * w, others);
    if left < 1 then 1 else left
  }

  function Boosted(t: Tier, m: real, extra: int, others: int): Tier {
    if Top(t) then t.(weight := t.weight + Extra(t, m))
    else if others > 0 && extra > 0 then t.(weight := Reduced(t.weight, extra, others))
    else t
  }

  function Adjusted(base: seq<Tier>, m: real): seq<Tier> {
    if m == 1.0 || m == 0.0 then base else BoostAll(base, m, ExtraSum(base, m), OtherSum(base))
  }

  function BoostAll(ts: seq<Tier>, m: real, extra: int, others: int): seq<Tier> {
    seq(|ts|, i requires 0 <= i < |ts| => Boosted(ts[i], m, extra, others))
  }

  /** The base table is copied, never written; without a boost it is returned itself. */
  method AdjustRates(base: array<Tier>, multiplier: real) returns (adjusted: array<Tier>)
    ensures adjusted[..] == Adjusted(base[..], multiplier)
    ensures base[..] == old(base[..])
    ensures adjusted == base || fresh(adjusted)
  {
    if multiplier == 1.0 || multiplier == 0.0 {
      return base;
    }
    adjusted := new Tier[base.Length](i requires 0 <= i < base.Length reads base => base[i]);
    var fourStarExtra, nonFourStar := 0, 0;
    for i := 0 to adjusted.Length
      invariant base[..] == old(base[..])
      invariant fourStarExtra == ExtraSum(base[..i], multiplier) && nonFourStar == OtherSum(base[..i])
      invariant forall k :: 0 <= k < adjusted.Length ==>
        adjusted[k] == if k < i && Top(base[k]) then base[k].(weight := base[k].weight + Extra(base[k], multiplier)) else base[k]
    {
      assert base[..i + 1][..i] == base[..i];
      var r := adjusted[i];
      if r.rarity >= SSRARE {
        var extra := Trunc(r.weight as real * (multiplier - 1.0));
        adjusted[i] := adjusted[i].(weight := adjusted[i].weight + extra);
        fourStarExtra := fourStarExtra + extra;
      } else {
        nonFourStar := nonFourStar + r.weight;
      }
    }
    assert base[..base.Length] == base[..];
    if nonFourStar > 0 && fourStarExtra > 0 {
      for i := 0 to adjusted.Length
        invariant base[..] == old(base[..])
        invariant forall k :: 0 <= k < i ==> adjusted[k] == Boosted(base[k], multiplier, fourStarExtra, nonFourStar)
        invariant forall k :: i <= k < adjusted.Length ==>
          adjusted[k] == if Top(base[k]) then base[k].(weight := base[k].weight + Extra(base[k], multiplier)) else base[k]
      {
        var r := adjusted[i];
        if r.rarity < SSRARE {
          var reduction := Quotient(fourStarExtra * r.weight, nonFourStar);
          adjusted[i] := adjusted[i].(weight := adjusted[i].weight - reduction);
          if adjusted[i].weight < 1 {
            adjusted[i] := adjusted[i].(weight := 1);
          }
        }
      }
    }
  }

  // ---- What the boost does to the odds ----

  /** The premium table and every adjusted one. */
  predicate Positive(ts: seq<Tier>) {
    forall t :: t in ts ==> t.weight >= 1
  }

  lemma ExtraGrows(t: Tier, m: real)
    requires t.weight >= 1 && m >= 1.0
    ensures Extra(t, m) >= 0
    ensures m == 1.0 ==> Extra(t, m) == 0
  {
    assert t.weight as real * (m - 1.0) >= 0.0;
  }

  lemma Ordered(a: int, b: int, c: int)
    requires c > 0
    ensures a <= b ==> a * c <= b * c
    ensures a < b ==> a * c < b * c
    ensures b <= a ==> b * c <= a * c
  {
  }

  /** Truncation costs a lesser tier less than one unit of weight against its exact share. */
  lemma ReducedBounds(w: int, extra: int, others: int)
    requires w >= 1 && extra > 0 && others > 0
    ensures extra <= others ==> 0 <= others * (Reduced(w, extra, others) - w) + extra * w <= others
    ensures extra >= others ==> Reduced(w, extra, others) == 1
    ensures Reduced(w, extra, others) >= 1
  {
    var q := extra * w / others;
    assert extra * w == others * q + extra * w % others;
    Ordered(extra, others, w);
    Ordered(q + 1, w, others);
    Ordered(w, q, others);
    if extra == others {
      assert others * (1 - w) + extra * w == others;
    } else if extra < others {
      assert others * (w - q - w) == -(others * q);
    }
  }

  lemma {:induction false} BoostedSum(ts: seq<Tier>, m: real, extra: int, others: int)
    requires Positive(ts) && 0 < extra <= others
    ensures var gain := Sum(BoostAll(ts, m, extra, others)) - Sum(ts) - ExtraSum(ts, m);
            0 <= others * gain + extra * OtherSum(ts) <= others * Others(ts)
  {
    hide Reduced, Extra;
    if ts != [] {
      var n := |ts| - 1;
      BoostedSum(ts[..n], m, extra, others);
      var before := Sum(BoostAll(ts[..n], m, extra, others)) - Sum(ts[..n]) - ExtraSum(ts[..n], m);
      assert BoostAll(ts, m, extra, others)[..n] == BoostAll(ts[..n], m, extra, others);
      if !Top(ts[n]) {
        var w := ts[n].weight;
        var change := Reduced(w, extra, others) - w;
        ReducedBounds(w, extra, others);
        assert others * (before + change) == others * before + others * change;
        assert extra * (OtherSum(ts[..n]) + w) == extra * OtherSum(ts[..n]) + extra * w;
        assert others * (Others(ts[..n]) + 1) == others * Others(ts[..n]) + others;
      }
    }
  }

  lemma {:induction false} SumsSplit(ts: seq<Tier>, m: real)
    requires Positive(ts) && m >= 1.0
    ensures OtherSum(ts) >= Others(ts) && ExtraSum(ts, m) >= 0
    ensures m == 1.0 ==> ExtraSum(ts, m) == 0
  {
    if ts != [] {
      SumsSplit(ts[..|ts| - 1], m);
      ExtraGrows(ts[|ts| - 1], m);
    }
  }

  /** Too much extra weight: every lesser tier is down to weight 1. */
  lemma {:induction false} SwampedSum(ts: seq<Tier>, m: real, extra: int, others: int)
    requires Positive(ts) && extra >= others > 0
    ensures Sum(BoostAll(ts, m, extra, others)) == Sum(ts) + ExtraSum(ts, m) - OtherSum(ts) + Others(ts)
  {
    hide Reduced, Extra;
    if ts != [] {
      var n := |ts| - 1;
      SwampedSum(ts[..n], m, extra, others);
      assert BoostAll(ts, m, extra, others)[..n] == BoostAll(ts[..n], m, extra, others);
      if !Top(ts[n]) {
        ReducedBounds(ts[n].weight, extra, others);
      }
    }
  }

  /** Nothing to take or nobody to take it from. */
  lemma {:induction false} UnreducedSum(ts: seq<Tier>, m: real, extra: int, others: int)
    requires extra <= 0 || others <= 0
    ensures Sum(BoostAll(ts, m, extra, others)) == Sum(ts) + ExtraSum(ts, m)
  {
    hide Extra;
    if ts != [] {
      var n := |ts| - 1;
      UnreducedSum(ts[..n], m, extra, others);
      assert BoostAll(ts, m, extra, others)[..n] == BoostAll(ts[..n], m, extra, others);
    }
  }

  lemma MeanBounds(gain: int, extra: int, others: int, n: int)
    requires others > 0 && 0 <= others * gain + extra * others <= others * n
    ensures 0 <= gain + extra <= n
  {
    assert others * gain + extra * others == (gain + extra) * others;
    Ordered(gain + extra, 0, others);
    Ordered(n, gain + extra, others);
  }

  /** A boost keeps the total weight up to one unit per lesser tier, exactly when the extra weight does not
      exceed what the lesser tiers hold; it never lowers the total. */
  lemma BoostConservesTotal(base: seq<Tier>, m: real)
    requires Positive(base) && m >= 1.0
    ensures Sum(base) <= Sum(Adjusted(base, m))
    ensures Sum(Adjusted(base, m)) <= Sum(base) + Others(base) <==> ExtraSum(base, m) <= OtherSum(base)
  {
    hide BoostAll, Reduced, Positive, Sum, ExtraSum, OtherSum, Others;
    var extra, others := ExtraSum(base, m), OtherSum(base);
    SumsSplit(base, m);
    if m == 1.0 {
    } else if extra == 0 || others == 0 {
      UnreducedSum(base, m, extra, others);
    } else if extra >= others {
      SwampedSum(base, m, extra, others);
    }
    if 0 < extra <= others && m != 1.0 {
      BoostedSum(base, m, extra, others);
      MeanBounds(Sum(BoostAll(base, m, extra, others)) - Sum(base) - extra, extra, others, Others(base));
    }
  }

  /** Top tiers gain exactly their truncated extra, lesser tiers never gain, kinds and rarities stay, and every
      weight stays at least 1, so every tier can still be rolled. */
  lemma BoostByTier(base: seq<Tier>, m: real, i: nat)
    requires Positive(base) && m >= 1.0 && i < |base|
    ensures Positive(Adjusted(base, m)) && |Adjusted(base, m)| == |base|
    ensures var t, after := base[i], Adjusted(base, m)[i];
            && after.kind == t.kind && after.rarity == t.rarity
            && (if Top(t) then after.weight == t.weight + Extra(t, m) && after.weight as real <= m * t.weight as real
                else after.weight <= t.weight)
  {
    hide Reduced;
    var extra, others := ExtraSum(base, m), OtherSum(base);
    forall k | 0 <= k < |base|
      ensures var t, after := base[k], Boosted(base[k], m, extra, others);
              after.weight >= 1 && (!Top(t) ==> after.weight <= t.weight)
    {
      ExtraGrows(base[k], m);
      if others > 0 && extra > 0 {
        ReducedBounds(base[k].weight, extra, others);
        ReducedFalls(base[k].weight, extra, others);
      }
    }
    ExtraGrows(base[i], m);
  }

  lemma ReducedFalls(w: int, extra: int, others: int)
    requires w >= 1 && extra > 0 && others > 0
    ensures Reduced(w, extra, others) <= w
  {
    assert extra * w > 0;
  }

  lemma PremiumSums(m: real)
    ensures Sum(PREMIUM) == 10000 && OtherSum(PREMIUM) == 9500 && Others(PREMIUM) == 3
    ensures ExtraSum(PREMIUM, m) == Extra(PREMIUM[0], m) + Extra(PREMIUM[1], m)
  {
    hide Extra;
    assert PREMIUM[..4][..3] == PREMIUM[..3] && PREMIUM[..3][..2] == PREMIUM[..2] && PREMIUM[..2][..1] == PREMIUM[..1];
    assert PREMIUM[..1][..0] == [];
    assert Sum(PREMIUM[..1]) == 200 && OtherSum(PREMIUM[..1]) == 0 && Others(PREMIUM[..1]) == 0;
    assert ExtraSum(PREMIUM[..1], m) == Extra(PREMIUM[0], m);
    assert Sum(PREMIUM[..2]) == 500 && OtherSum(PREMIUM[..2]) == 0 && Others(PREMIUM[..2]) == 0;
    assert Sum(PREMIUM[..4]) == 2000 && OtherSum(PREMIUM[..4]) == 1500 && Others(PREMIUM[..4]) == 2;
    assert ExtraSum(PREMIUM[..2], m) == Extra(PREMIUM[0], m) + Extra(PREMIUM[1], m);
    assert ExtraSum(PREMIUM[..4], m) == ExtraSum(PREMIUM[..2], m);
  }

  /** The boosts in use on the premium table: half as much again and double, with totals of 10000 and 10001. */
  lemma PremiumBoosts()
    ensures Sum(PREMIUM) == 10000
    ensures Adjusted(PREMIUM, 1.5) == [Tier(300, COSTUME, SSRARE), Tier(450, WEAPON, SSRARE), Tier(487, COSTUME, SRARE),
                                       Tier(974, WEAPON, SRARE), Tier(7790, WEAPON, RARE)]
    ensures Adjusted(PREMIUM, 2.0) == [Tier(400, COSTUME, SSRARE), Tier(600, WEAPON, SSRARE), Tier(474, COSTUME, SRARE),
                                       Tier(948, WEAPON, SRARE), Tier(7579, WEAPON, RARE)]
  {
    PremiumSums(1.5);
    PremiumSums(2.0);
  }
}
