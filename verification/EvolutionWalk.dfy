/** The walk to the end of an evolution chain in lunar-base-grant's mass_upgrades.go. Its loop has no bound of its own;
    this module says exactly when it ends. */
module EvolutionWalk {
  import opened Wrappers
  import opened Evolution

  // ---- Walks ----

  /** Where n evolutions lead; None when the weapons run out before. */
  function Steps(next: map<int, int>, w: int, n: nat): Option<int> {
    if n == 0 then Some(w)
    else
      var v := Steps(next, w, n - 1);
      if v.Some? && v.value in next then Some(next[v.value]) else None
  }

  ghost predicate WalkEnds(next: map<int, int>, w: int) {
    exists n: nat :: Steps(next, w, n).None?
  }

  ghost predicate WalksTo(next: map<int, int>, w: int, end: int) {
    end !in next && exists n: nat :: Steps(next, w, n) == Some(end)
  }

  /** Some evolutions lead from z back to z. */
  ghost predicate ComesBack(next: map<int, int>, z: int) {
    exists n: nat :: n > 0 && Steps(next, z, n) == Some(z)
  }

  lemma {:induction false} StepsAdd(next: map<int, int>, w: int, a: nat, b: nat)
    requires Steps(next, w, a).Some?
    ensures Steps(next, w, a + b) == Steps(next, Steps(next, w, a).value, b)
  {
    if b > 0 {
      StepsAdd(next, w, a, b - 1);
    }
  }

  lemma {:induction false} StepsStop(next: map<int, int>, w: int, a: nat, b: nat)
    requires a <= b && Steps(next, w, a).None?
    ensures Steps(next, w, b).None?
    decreases b
  {
    if a < b {
      StepsStop(next, w, a, b - 1);
    }
  }

  /** A walk ends at one weapon. */
  lemma EndIsUnique(next: map<int, int>, w: int, a: int, b: int)
    requires WalksTo(next, w, a) && WalksTo(next, w, b)
    ensures a == b
  {
    var m: nat :| Steps(next, w, m) == Some(a);
    var n: nat :| Steps(next, w, n) == Some(b);
    if m < n {
      assert Steps(next, w, m + 1).None?;
      StepsStop(next, w, m + 1, n);
    } else if n < m {
      assert Steps(next, w, n + 1).None?;
      StepsStop(next, w, n + 1, m);
    }
  }

  /** The loop of mass upgrades: from any weapon whose walk ends, it ends where the walk does. */
  method EvolveToEnd(next: map<int, int>, weapon: int) returns (finalId: int)
    requires WalkEnds(next, weapon)
    ensures WalksTo(next, weapon, finalId)
    ensures forall end :: WalksTo(next, weapon, end) ==> end == finalId
  {
    ghost var n: nat :| Steps(next, weapon, n).None?;
    ghost var m: nat := 0;
    finalId := weapon;
    while true
      invariant m < n && Steps(next, weapon, m) == Some(finalId)
      decreases n - m
    {
      if finalId !in next {
        break;
      }
      finalId := next[finalId];
      m := m + 1;
      if m >= n {
        StepsStop(next, weapon, n, m);
      }
    }
    forall end | WalksTo(next, weapon, end) ensures end == finalId {
      EndIsUnique(next, weapon, end, finalId);
    }
  }

  // ---- One row per weapon ----

  lemma {:induction false} ClimbingWalkEnds(order: map<int, int>, next: map<int, int>, height: int, w: int)
    requires Climbs(order, next, height)
    ensures WalkEnds(next, w)
    decreases if w in order then height - order[w] else 0
  {
    if w in next {
      ClimbingWalkEnds(order, next, height, next[w]);
      var n: nat :| Steps(next, next[w], n).None?;
      StepsAdd(next, w, 1, n);
      assert Steps(next, w, 1 + n).None?;
    } else {
      assert Steps(next, w, 1).None?;
    }
  }

  /** With one row per weapon every walk ends, and one that starts in a chain ends at the chain's last weapon. */
  lemma WalkEndsAtChainEnd(rows: seq<Row>, chains: map<int, seq<Row>>, order: map<int, int>, next: map<int, int>, w: int)
    requires ChainsOf(rows, chains) && OneRowEach(rows)
    requires OrdersFrom(order, chains) && NextsFrom(next, chains)
    ensures WalkEnds(next, w)
    ensures forall g, i :: At(chains, g, i, w) ==> WalksTo(next, w, chains[g][|chains[g]| - 1].weapon)
  {
    EvolutionClimbs(rows, chains, order, next);
    hide ChainsOf, OneRowEach, OrdersFrom, NextsFrom, WalksTo;
    ClimbingWalkEnds(order, next, |rows|, w);
    forall g, i | At(chains, g, i, w) ensures WalksTo(next, w, chains[g][|chains[g]| - 1].weapon) {
      WalksUp(rows, chains, order, next, g, i, w);
    }
  }

  lemma {:induction false} WalksUp(rows: seq<Row>, chains: map<int, seq<Row>>, order: map<int, int>, next: map<int, int>,
                                   g: int, i: int, w: int)
    requires ChainsOf(rows, chains) && OneRowEach(rows)
    requires OrdersFrom(order, chains) && NextsFrom(next, chains)
    requires At(chains, g, i, w)
    ensures WalksTo(next, w, chains[g][|chains[g]| - 1].weapon)
    decreases if g in chains then |chains[g]| - i else 0
  {
    MapsAreChains(rows, chains, order, next, g, i, w);
    hide ChainsOf, OneRowEach, OrdersFrom, NextsFrom;
    if w in next {
      WalksUp(rows, chains, order, next, g, i + 1, next[w]);
      var end := chains[g][|chains[g]| - 1].weapon;
      var n: nat :| Steps(next, next[w], n) == Some(end);
      StepsAdd(next, w, 1, n);
      assert Steps(next, w, 1 + n) == Some(end);
    } else {
      assert Steps(next, w, 0) == Some(w);
    }
  }

  // ---- Any table ----

  /** Weapon w has a successor at row i of the k-th chain visited. */
  predicate Evolves(cs: seq<seq<Row>>, k: int, i: int, w: int) {
    0 <= k < |cs| && 0 <= i < Links(cs[k]) && cs[k][i].weapon == w
  }

  /** And it is the last such row visited. */
  ghost predicate Latest(cs: seq<seq<Row>>, k: int, i: int, w: int) {
    Evolves(cs, k, i, w) && forall h, j :: Evolves(cs, h, j, w) ==> h < k || (h == k && j <= i)
  }

  /** The walk leads from w to the weapon below that row. */
  ghost predicate Leads(cs: seq<seq<Row>>, k: int, i: int, w: int) {
    Latest(cs, k, i, w) && w in NextAfter(cs) && NextAfter(cs)[w] == cs[k][i + 1].weapon
  }

  /** Row i is the last of the chain's first n rows with weapon w. */
  predicate LastOf(chain: seq<Row>, n: int, w: int, i: int) {
    0 <= i < n <= |chain| && chain[i].weapon == w && forall j :: i < j < n ==> chain[j].weapon != w
  }

  lemma {:induction false} RecordedAt(next: map<int, int>, chain: seq<Row>, n: nat, w: int)
    requires n <= Links(chain)
    ensures (forall i :: 0 <= i < n ==> chain[i].weapon != w) ==>
              (w in Recorded(next, chain, n) <==> w in next) && (w in next ==> Recorded(next, chain, n)[w] == next[w])
    ensures forall i :: LastOf(chain, n, w, i) ==>
              w in Recorded(next, chain, n) && Recorded(next, chain, n)[w] == chain[i + 1].weapon
  {
    if n > 0 {
      RecordedAt(next, chain, n - 1, w);
      if chain[n - 1].weapon == w {
        assert LastOf(chain, n, w, n - 1);
      } else {
        assert forall i :: LastOf(chain, n, w, i) ==> LastOf(chain, n - 1, w, i);
      }
    }
  }

  lemma {:induction false} SomeLast(chain: seq<Row>, n: nat, w: int, i: int)
    requires 0 <= i < n <= |chain| && chain[i].weapon == w
    ensures exists j :: LastOf(chain, n, w, j)
  {
    if chain[n - 1].weapon == w {
      assert LastOf(chain, n, w, n - 1);
    } else {
      SomeLast(chain, n - 1, w, i);
      var j :| LastOf(chain, n - 1, w, j);
      assert LastOf(chain, n, w, j);
    }
  }

  /** A weapon is in the successor map exactly when some row gives it a successor, and the latest such row says which. */
  lemma {:induction false} NextIsLatest(cs: seq<seq<Row>>, w: int)
    ensures w in NextAfter(cs) <==> exists k, i :: Evolves(cs, k, i, w)
    ensures w in NextAfter(cs) ==> exists k, i :: Leads(cs, k, i, w)
  {
    if cs != [] {
      var n := |cs| - 1;
      var before := cs[..n];
      NextIsLatest(before, w);
      RecordedAt(NextAfter(before), cs[n], Links(cs[n]), w);
      forall i | 0 <= i < Links(cs[n]) && cs[n][i].weapon == w ensures exists j :: LastOf(cs[n], Links(cs[n]), w, j) {
        SomeLast(cs[n], Links(cs[n]), w, i);
      }
      assert forall k, i :: Evolves(before, k, i, w) ==> Evolves(cs, k, i, w);
      if exists i :: LastOf(cs[n], Links(cs[n]), w, i) {
        var i :| LastOf(cs[n], Links(cs[n]), w, i);
        assert Leads(cs, n, i, w);
      } else {
        assert forall k, i :: Evolves(cs, k, i, w) ==> Evolves(before, k, i, w);
        if w in NextAfter(before) {
          var k, i :| Leads(before, k, i, w);
          assert Leads(cs, k, i, w);
        }
      }
    }
  }

  function Ends(cs: seq<seq<Row>>): set<int> {
    set k | 0 <= k < |cs| && cs[k] != [] :: cs[k][|cs[k]| - 1].weapon
  }

  ghost predicate Reaches(next: map<int, int>, z: int, w: int) {
    exists n: nat :: Steps(next, z, n) == Some(w)
  }

  lemma ReachesOn(next: map<int, int>, z: int, w: int)
    requires Reaches(next, z, w) && w in next
    ensures Reaches(next, z, next[w])
    ensures next[w] == z ==> ComesBack(next, z)
  {
    var n: nat :| Steps(next, z, n) == Some(w);
    assert Steps(next, z, n + 1) == Some(next[w]);
  }

  lemma EndsOn(next: map<int, int>, w: int)
    requires w in next && WalkEnds(next, next[w])
    ensures WalkEnds(next, w)
  {
    var n: nat :| Steps(next, next[w], n).None?;
    StepsAdd(next, w, 1, n);
    assert Steps(next, w, 1 + n).None?;
  }

  /** Between chain ends a walk moves on to a later row or a later chain; so when no chain end comes back, it meets
      each end at most once. seen are the ends met. */
  lemma {:induction false} WalkStops(cs: seq<seq<Row>>, w: int, seen: set<int>, k: int, i: int)
    requires forall z :: z in Ends(cs) ==> !ComesBack(NextAfter(cs), z)
    requires seen <= Ends(cs) && forall z :: z in seen ==> Reaches(NextAfter(cs), z, w)
    requires Leads(cs, k, i, w)
    ensures WalkEnds(NextAfter(cs), w)
    decreases Ends(cs) - seen, |cs| - k, |cs[k]| - i
  {
    var next := NextAfter(cs);
    var v := next[w];
    forall z | z in seen ensures Reaches(next, z, v) && z != v {
      ReachesOn(next, z, w);
    }
    if v !in next {
      assert Steps(next, v, 1).None?;
    } else {
      NextIsLatest(cs, v);
      var h, j :| Leads(cs, h, j, v);
      if i + 1 == |cs[k]| - 1 {
        assert v in Ends(cs);
        assert Steps(next, v, 0) == Some(v);
        assert v in Ends(cs) - seen && v !in Ends(cs) - (seen + {v});
        WalkStops(cs, v, seen + {v}, h, j);
      } else {
        assert Evolves(cs, k, i + 1, v);
        WalkStops(cs, v, seen, h, j);
      }
    }
    EndsOn(next, w);
  }

  lemma {:induction false} GoesRound(next: map<int, int>, z: int, n: nat, m: nat)
    requires n > 0 && Steps(next, z, n) == Some(z)
    ensures Steps(next, z, m).Some?
    decreases m
  {
    if m < n {
      if Steps(next, z, m).None? {
        StepsStop(next, z, m, n);
      }
    } else {
      GoesRound(next, z, n, m - n);
      StepsAdd(next, z, n, m - n);
    }
  }

  /** For any table and any order of visiting its chains: every walk ends exactly when no chain's last weapon comes
      back to itself, so only chain ends need looking at. */
  lemma WalksEndExactly(cs: seq<seq<Row>>)
    ensures (forall w :: WalkEnds(NextAfter(cs), w)) <==> (forall z :: z in Ends(cs) ==> !ComesBack(NextAfter(cs), z))
  {
    var next := NextAfter(cs);
    if z :| z in Ends(cs) && ComesBack(next, z) {
      var n: nat :| n > 0 && Steps(next, z, n) == Some(z);
      forall m: nat ensures Steps(next, z, m).Some? {
        GoesRound(next, z, n, m);
      }
      assert !WalkEnds(next, z);
    } else {
      forall w ensures WalkEnds(next, w) {
        if w in next {
          NextIsLatest(cs, w);
          var k, i :| Leads(cs, k, i, w);
          WalkStops(cs, w, {}, k, i);
        } else {
          assert Steps(next, w, 1).None?;
        }
      }
    }
  }

  // ---- Tables with no weapon in two groups ----

  predicate Apart(cs: seq<seq<Row>>) {
    forall h, k, i, j ::
      0 <= h < |cs| && 0 <= k < |cs| && 0 <= i < |cs[h]| && 0 <= j < |cs[k]| && cs[h][i].weapon == cs[k][j].weapon ==> h == k
  }

  /** The chain lists its last weapon earlier, too. */
  predicate EndRepeats(chain: seq<Row>) {
    exists i :: 0 <= i < |chain| - 1 && chain[i].weapon == chain[|chain| - 1].weapon
  }

  /** A walk in a chain of its own comes to the chain's last weapon. */
  lemma {:induction false} ReachesEnd(cs: seq<seq<Row>>, k: int, i: int, w: int)
    requires Apart(cs) && Leads(cs, k, i, w)
    ensures exists n: nat :: n > 0 && Steps(NextAfter(cs), w, n) == Some(cs[k][|cs[k]| - 1].weapon)
    decreases |cs[k]| - i
  {
    var next := NextAfter(cs);
    var v, end := next[w], cs[k][|cs[k]| - 1].weapon;
    if i + 1 == |cs[k]| - 1 {
      assert Steps(next, w, 0) == Some(w);
      assert Steps(next, w, 1) == Some(end);
    } else {
      assert Evolves(cs, k, i + 1, v);
      NextIsLatest(cs, v);
      var h, j :| Leads(cs, h, j, v);
      assert cs[h][j].weapon == cs[k][i + 1].weapon;
      ReachesEnd(cs, h, j, v);
      var n: nat :| n > 0 && Steps(next, v, n) == Some(end);
      assert Steps(next, w, 0) == Some(w);
      assert Steps(next, w, 1) == Some(v);
      StepsAdd(next, w, 1, n);
      assert Steps(next, w, 1 + n) == Some(end);
    }
  }

  lemma ComesBackExactly(cs: seq<seq<Row>>, k: int)
    requires Apart(cs) && 0 <= k < |cs| && cs[k] != []
    ensures ComesBack(NextAfter(cs), cs[k][|cs[k]| - 1].weapon) <==> EndRepeats(cs[k])
  {
    var next, z := NextAfter(cs), cs[k][|cs[k]| - 1].weapon;
    NextIsLatest(cs, z);
    if EndRepeats(cs[k]) {
      var i :| 0 <= i < |cs[k]| - 1 && cs[k][i].weapon == z;
      assert Evolves(cs, k, i, z);
      var h, j :| Leads(cs, h, j, z);
      assert cs[h][j].weapon == cs[k][i].weapon;
      ReachesEnd(cs, h, j, z);
    }
    if ComesBack(next, z) {
      var n: nat :| n > 0 && Steps(next, z, n) == Some(z);
      assert Steps(next, z, 1).Some? by {
        if Steps(next, z, 1).None? {
          StepsStop(next, z, 1, n);
        }
      }
      assert Steps(next, z, 0) == Some(z);
      var h, j :| Leads(cs, h, j, z);
      assert cs[h][j].weapon == cs[k][|cs[k]| - 1].weapon;
    }
  }

  /** When no weapon is in two chains, every walk ends exactly when no chain lists its last weapon twice. */
  lemma ApartWalksEndExactly(cs: seq<seq<Row>>)
    requires Apart(cs)
    ensures (forall w :: WalkEnds(NextAfter(cs), w)) <==> forall k :: 0 <= k < |cs| ==> !EndRepeats(cs[k])
  {
    hide Apart, ComesBack, EndRepeats, WalkEnds;
    WalksEndExactly(cs);
    forall k | 0 <= k < |cs| && cs[k] != []
      ensures ComesBack(NextAfter(cs), cs[k][|cs[k]| - 1].weapon) <==> EndRepeats(cs[k])
    {
      ComesBackExactly(cs, k);
    }
    forall k | 0 <= k < |cs| && cs[k] == [] ensures !EndRepeats(cs[k]) {
      NoRowsNoRepeat(cs[k]);
    }
    if forall w :: WalkEnds(NextAfter(cs), w) {
      forall k | 0 <= k < |cs| && cs[k] != [] ensures !EndRepeats(cs[k]) {
        assert cs[k][|cs[k]| - 1].weapon in Ends(cs);
      }
    }
  }

  lemma NoRowsNoRepeat(chain: seq<Row>)
    requires chain == []
    ensures !EndRepeats(chain)
  {
  }

  /** A successor map that loading the chains may give, whatever the order Go visits them in. */
  ghost predicate Outcome(chains: map<int, seq<Row>>, next: map<int, int>) {
    exists visited :: Visits(chains, visited) && next == NextAfter(InTurn(chains, visited))
  }

  lemma {:induction false} SomeVisits(chains: map<int, seq<Row>>) returns (visited: seq<int>)
    ensures Visits(chains, visited)
    decreases chains.Keys
  {
    if chains.Keys == {} {
      visited := [];
    } else {
      SomeInt(chains.Keys);
      var g :| g in chains.Keys;
      assert (chains - {g}).Keys == chains.Keys - {g};
      visited := SomeVisits(chains - {g});
      assert g !in visited;
      visited := visited + [g];
    }
  }

  predicate OneGroupEach(rows: seq<Row>) {
    forall i, j :: 0 <= i < j < |rows| && rows[i].weapon == rows[j].weapon ==> rows[i].group == rows[j].group
  }

  /** The row of a group's greatest order names a weapon that another row of the group names, too. */
  ghost predicate TopRepeats(rows: seq<Row>) {
    exists i, j :: Repeats(rows, i, j) && OnTop(rows, i)
  }

  predicate OnTop(rows: seq<Row>, i: int)
    requires 0 <= i < |rows|
  {
    forall k :: 0 <= k < |rows| && rows[k].group == rows[i].group ==> rows[k].order <= rows[i].order
  }

  predicate Repeats(rows: seq<Row>, i: int, j: int) {
    0 <= i < |rows| && 0 <= j < |rows| && i != j && rows[i].group == rows[j].group && rows[i].weapon == rows[j].weapon
  }

  lemma RowInChain(rows: seq<Row>, chains: map<int, seq<Row>>, k: int)
    requires ChainsOf(rows, chains) && 0 <= k < |rows|
    ensures rows[k].group in chains && rows[k] in chains[rows[k].group]
  {
    RowsOfIn(rows, rows[k].group, rows[k]);
    assert rows[k] in multiset(rows);
    assert rows[k] in multiset(RowsOf(rows, rows[k].group));
    assert rows[k] in multiset(chains[rows[k].group]);
  }

  lemma {:induction false} TwoPlaces(s: seq<Row>, x: Row)
    requires multiset(s)[x] >= 2
    ensures exists a, b :: 0 <= a < b < |s| && s[a] == x && s[b] == x
  {
    var n := |s| - 1;
    assert s == s[..n] + [s[n]];
    if s[n] == x {
      assert x in multiset(s[..n]);
      var a :| 0 <= a < n && s[..n][a] == x;
      assert s[a] == x;
    } else {
      TwoPlaces(s[..n], x);
      var a, b :| 0 <= a < b < n && s[..n][a] == x && s[..n][b] == x;
      assert s[a] == x && s[b] == x;
    }
  }

  /** With distinct orders that row is the chain's last. */
  lemma TopIsEnd(rows: seq<Row>, chains: map<int, seq<Row>>)
    requires ChainsOf(rows, chains) && DistinctOrders(rows)
    ensures TopRepeats(rows) <==> exists g :: g in chains && EndRepeats(chains[g])
  {
    if TopRepeats(rows) {
      var i, j :| Repeats(rows, i, j) && OnTop(rows, i);
      TopRowEnds(rows, chains, i, j);
    }
    if g :| g in chains && EndRepeats(chains[g]) {
      RepeatIsOnTop(rows, chains, g);
    }
  }

  lemma TopRowEnds(rows: seq<Row>, chains: map<int, seq<Row>>, i: int, j: int)
    requires ChainsOf(rows, chains) && DistinctOrders(rows) && Repeats(rows, i, j) && OnTop(rows, i)
    ensures rows[i].group in chains && EndRepeats(chains[rows[i].group])
  {
    var g := rows[i].group;
    RowInChain(rows, chains, i);
    RowInChain(rows, chains, j);
    var chain := chains[g];
    var p :| 0 <= p < |chain| && chain[p] == rows[i];
    var q :| 0 <= q < |chain| && chain[q] == rows[j];
    ChainRow(rows, chains, g, |chain| - 1);
    ChainOrders(rows, chains, g);
    assert chain[p].order <= chain[|chain| - 1].order;
    assert chain[|chain| - 1] == chain[p];
    assert rows[i].order != rows[j].order;
    assert q < |chain| - 1 && chain[q].weapon == chain[|chain| - 1].weapon;
  }

  lemma RowsDiffer(rows: seq<Row>, chains: map<int, seq<Row>>, g: int, p: nat, q: nat)
    requires ChainsOf(rows, chains) && DistinctOrders(rows) && g in chains && p < q < |chains[g]|
    ensures chains[g][p] != chains[g][q]
  {
    if chains[g][p] == chains[g][q] {
      CountTwice(chains[g], p, q);
      RowsOfIn(rows, g, chains[g][q]);
      TwoPlaces(rows, chains[g][q]);
    }
  }

  lemma RepeatIsOnTop(rows: seq<Row>, chains: map<int, seq<Row>>, g: int)
    requires ChainsOf(rows, chains) && DistinctOrders(rows) && g in chains && EndRepeats(chains[g])
    ensures TopRepeats(rows)
  {
    var chain := chains[g];
    var last := |chain| - 1;
    var p :| 0 <= p < last && chain[p].weapon == chain[last].weapon;
    ChainRow(rows, chains, g, p);
    ChainRow(rows, chains, g, last);
    var i :| 0 <= i < |rows| && rows[i] == chain[last];
    var j :| 0 <= j < |rows| && rows[j] == chain[p];
    RowsDiffer(rows, chains, g, p, last);
    assert Repeats(rows, i, j);
    forall k | 0 <= k < |rows| && rows[k].group == rows[i].group ensures rows[k].order <= rows[i].order {
      RowInChain(rows, chains, k);
      var at :| 0 <= at < |chain| && chain[at] == rows[k];
      assert at == last || chain[at].order <= chain[last].order;
    }
  }

  lemma OneGroupApart(rows: seq<Row>, chains: map<int, seq<Row>>, visited: seq<int>)
    requires ChainsOf(rows, chains) && OneGroupEach(rows) && Visits(chains, visited)
    ensures Apart(InTurn(chains, visited))
  {
    hide ChainsOf;
    var cs: seq<seq<Row>> := InTurn(chains, visited);
    forall h, k, i, j |
      0 <= h < |cs| && 0 <= k < |cs| && 0 <= i < |cs[h]| && 0 <= j < |cs[k]| && cs[h][i].weapon == cs[k][j].weapon
      ensures h == k
    {
      ChainRow(rows, chains, visited[h], i);
      ChainRow(rows, chains, visited[k], j);
      var a :| 0 <= a < |rows| && rows[a] == cs[h][i];
      var b :| 0 <= b < |rows| && rows[b] == cs[k][j];
      assert rows[a].group == rows[b].group;
    }
  }

  /** For a table whose weapons are in one group each, rows repeated or not: every walk of every outcome of loading it
      ends exactly when no group's last row repeats a weapon of the group. */
  lemma TableWalksEndExactly(rows: seq<Row>, chains: map<int, seq<Row>>)
    requires ChainsOf(rows, chains) && OneGroupEach(rows) && DistinctOrders(rows)
    ensures (forall next, w :: Outcome(chains, next) ==> WalkEnds(next, w)) <==> !TopRepeats(rows)
  {
    TopIsEnd(rows, chains);
    hide ChainsOf, OneGroupEach, DistinctOrders, TopRepeats, EndRepeats, WalkEnds, Apart;
    forall visited | Visits(chains, visited)
      ensures (forall w :: WalkEnds(NextAfter(InTurn(chains, visited)), w)) <==> forall g :: g in chains ==> !EndRepeats(chains[g])
    {
      OneGroupApart(rows, chains, visited);
      ApartWalksEndExactly(InTurn(chains, visited));
      VisitsAll(chains, visited);
    }
    var some := SomeVisits(chains);
    assert Outcome(chains, NextAfter(InTurn(chains, some)));
  }

  lemma VisitsAll(chains: map<int, seq<Row>>, visited: seq<int>)
    requires Visits(chains, visited)
    ensures var cs := InTurn(chains, visited);
            (forall k :: 0 <= k < |cs| ==> !EndRepeats(cs[k])) <==> forall g :: g in chains ==> !EndRepeats(chains[g])
  {
    hide EndRepeats;
    var cs: seq<seq<Row>> := InTurn(chains, visited);
    if forall k :: 0 <= k < |cs| ==> !EndRepeats(cs[k]) {
      forall g | g in chains ensures !EndRepeats(chains[g]) {
        var k :| 0 <= k < |visited| && visited[k] == g;
        assert cs[k] == chains[g];
      }
    }
    if forall g :: g in chains ==> !EndRepeats(chains[g]) {
      forall k | 0 <= k < |cs| ensures !EndRepeats(cs[k]) {
        assert cs[k] == chains[visited[k]];
      }
    }
  }

  // ---- Weapons in several groups ----

  /** If the weapons can be ranked so that every chain falls, every walk of every outcome ends. */
  lemma {:induction false} FallingRankEnds(chains: map<int, seq<Row>>, next: map<int, int>, rank: int -> nat, w: int)
    requires NextsFrom(next, chains) && forall g, i, x, y :: Before(chains, g, i, x, y) ==> rank(y) < rank(x)
    ensures WalkEnds(next, w)
    decreases rank(w)
  {
    if w in next {
      FallingRankEnds(chains, next, rank, next[w]);
      EndsOn(next, w);
    } else {
      assert Steps(next, w, 1).None?;
    }
  }

  lemma RecordedTwo(next: map<int, int>, chain: seq<Row>)
    requires |chain| == 3
    ensures Recorded(next, chain, 2) == next[chain[0].weapon := chain[1].weapon][chain[1].weapon := chain[2].weapon]
  {
    assert Recorded(next, chain, 0) == next;
    assert Recorded(next, chain, 1) == next[chain[0].weapon := chain[1].weapon];
  }

  lemma NextAfterOne(chain: seq<Row>)
    requires |chain| == 3
    ensures NextAfter([chain]) == map[chain[0].weapon := chain[1].weapon][chain[1].weapon := chain[2].weapon]
  {
    assert [chain][..0] == [];
    assert NextAfter([]) == map[];
    RecordedTwo(map[], chain);
  }

  /** Such a ranking is not needed, though: of two chains that run against each other Go visits one last, and its
      successors win, so both outcomes end although each weapon comes before the other in some chain. */
  lemma CrossedChainsEnd(a: seq<Row>, b: seq<Row>, w: int)
    requires |a| == |b| == 3 && a[0].weapon == b[1].weapon && a[1].weapon == b[0].weapon
    requires a[0].weapon != a[1].weapon
    requires a[2].weapon !in {a[0].weapon, a[1].weapon} && b[2].weapon !in {a[0].weapon, a[1].weapon}
    ensures WalkEnds(NextAfter([a, b]), w)
    ensures var chains := map[1 := a, 2 := b]; exists x, y :: Before(chains, 1, 0, x, y) && Before(chains, 2, 0, y, x)
  {
    var x, y := a[0].weapon, a[1].weapon;
    assert Before(map[1 := a, 2 := b], 1, 0, x, y) && Before(map[1 := a, 2 := b], 2, 0, y, x);
    var next := NextAfter([a, b]);
    assert [a, b][..1] == [a] && [a][..0] == [];
    NextAfterOne(a);
    RecordedTwo(NextAfter([a]), b);
    assert next == map[x := b[2].weapon, y := x];
    assert Steps(next, w, 0) == Some(w);
    assert Steps(next, w, 1) == if w in next then Some(next[w]) else None;
    assert Steps(next, w, 3).None?;
  }

  /** A weapon listed again at the end of its group: x evolves into y and y into x, and neither walk ends. */
  lemma RepeatedWeaponCycles(rows: seq<Row>, g: int)
    requires |rows| == 3 && InOrder(rows) && forall r :: r in rows ==> r.group == g
    requires rows[0].weapon == rows[2].weapon
    ensures ChainsOf(rows, map[g := rows])
    ensures var next := NextAfter(InTurn(map[g := rows], [g]));
            && Outcome(map[g := rows], next)
            && next == map[rows[0].weapon := rows[1].weapon, rows[1].weapon := rows[0].weapon]
            && !WalkEnds(next, rows[0].weapon) && !WalkEnds(next, rows[1].weapon)
  {
    OneChain(rows, g);
    hide ChainsOf, InOrder;
    var x, y := rows[0].weapon, rows[1].weapon;
    assert InTurn(map[g := rows], [g]) == [rows];
    var next := NextAfter([rows]);
    assert Visits(map[g := rows], [g]);
    NextAfterOne(rows);
    forall n: nat ensures Steps(next, x, n).Some? && Steps(next, y, n).Some? {
      StaysIn(next, {x, y}, x, n);
      StaysIn(next, {x, y}, y, n);
    }
  }

  lemma {:induction false} StaysIn(next: map<int, int>, ws: set<int>, w: int, n: nat)
    requires w in ws && forall v :: v in ws ==> v in next && next[v] in ws
    ensures Steps(next, w, n).Some? && Steps(next, w, n).value in ws
  {
    if n > 0 {
      StaysIn(next, ws, w, n - 1);
    }
  }

  lemma {:induction false} RowsOfAll(rows: seq<Row>, g: int, h: int)
    requires forall r :: r in rows ==> r.group == g
    ensures RowsOf(rows, h) == if h == g then rows else []
  {
    if rows != [] {
      var n := |rows| - 1;
      assert rows == rows[..n] + [rows[n]];
      RowsOfAll(rows[..n], g, h);
    }
  }

  /** A table of one group, in order, may be its own chain. */
  lemma OneChain(rows: seq<Row>, g: int)
    requires rows != [] && InOrder(rows) && forall r :: r in rows ==> r.group == g
    ensures ChainsOf(rows, map[g := rows])
  {
    forall h ensures RowsOf(rows, h) == if h == g then rows else [] {
      RowsOfAll(rows, g, h);
    }
  }
}
