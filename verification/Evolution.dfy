/** Weapon evolution chains: the loops of LoadWeaponCatalog (masterdata/weapon.go), the evolved set of
    masterdata/gacha_pool.go and the walk of lunar-base-grant's mass_upgrades.go. Go's map iteration order and the
    order sort.Slice leaves equal rows in are arbitrary. */
module Evolution {
  import opened Wrappers
  import opened Store
  import Experience

  datatype Row = Row(group: int, weapon: int, order: int)

  // ---- Grouping and sorting ----

  /** The rows of a group, in table order. */
  function RowsOf(rows: seq<Row>, group: int): seq<Row> {
    if rows == [] then []
    else
      var n := |rows| - 1;
      RowsOf(rows[..n], group) + if rows[n].group == group then [rows[n]] else []
  }

  predicate InOrder(chain: seq<Row>) {
    forall i, j :: 0 <= i < j < |chain| ==> chain[i].order <= chain[j].order
  }

  /** What grouping and sorting the table may give. */
  ghost predicate ChainsOf(rows: seq<Row>, chains: map<int, seq<Row>>) {
    && (forall g :: g in chains <==> RowsOf(rows, g) != [])
    && (forall g :: g in chains ==> multiset(chains[g]) == multiset(RowsOf(rows, g)) && InOrder(chains[g]))
  }

  method GroupRows(rows: seq<Row>) returns (grouped: map<int, seq<Row>>)
    ensures forall g :: g in grouped <==> RowsOf(rows, g) != []
    ensures forall g :: g in grouped ==> grouped[g] == RowsOf(rows, g)
  {
    grouped := map[];
    for k := 0 to |rows|
      invariant forall g :: g in grouped <==> RowsOf(rows[..k], g) != []
      invariant forall g :: g in grouped ==> grouped[g] == RowsOf(rows[..k], g)
    {
      assert rows[..k + 1][..k] == rows[..k];
      var r := rows[k];
      grouped := grouped[r.group := GetOr(grouped, r.group, []) + [r]];
    }
    assert rows[..|rows|] == rows;
  }

  lemma InsertKeeps(chain: seq<Row>, at: nat, row: Row)
    requires at <= |chain| && InOrder(chain)
    requires at > 0 ==> chain[at - 1].order <= row.order
    requires forall j :: at <= j < |chain| ==> row.order < chain[j].order
    ensures InOrder(chain[..at] + [row] + chain[at..])
    ensures multiset(chain[..at] + [row] + chain[at..]) == multiset(chain) + multiset{row}
  {
    assert chain == chain[..at] + chain[at..];
    var longer := chain[..at] + [row] + chain[at..];
    forall i, j | 0 <= i < j < |longer| ensures longer[i].order <= longer[j].order {
      assert i < at ==> at == 0 || chain[i].order <= chain[at - 1].order;
    }
  }

  /** Stands for sort.Slice: any permutation in order will do. */
  method SortRows(rows: seq<Row>) returns (chain: seq<Row>)
    ensures multiset(chain) == multiset(rows) && InOrder(chain)
  {
    chain := [];
    for k := 0 to |rows|
      invariant multiset(chain) == multiset(rows[..k]) && InOrder(chain)
    {
      hide InOrder;
      var at := |chain|;
      while at > 0 && rows[k].order < chain[at - 1].order
        invariant 0 <= at <= |chain|
        invariant forall j :: at <= j < |chain| ==> rows[k].order < chain[j].order
      {
        at := at - 1;
      }
      InsertKeeps(chain, at, rows[k]);
      assert rows[..k + 1] == rows[..k] + [rows[k]];
      chain := chain[..at] + [rows[k]] + chain[at..];
    }
    assert rows[..|rows|] == rows;
  }

  // ---- The catalog's maps ----

  /** Weapon w is at position i of group g's chain. */
  predicate At(chains: map<int, seq<Row>>, g: int, i: int, w: int) {
    g in chains && 0 <= i < |chains[g]| && chains[g][i].weapon == w
  }

  /** v comes right after w there. */
  predicate Before(chains: map<int, seq<Row>>, g: int, i: int, w: int, v: int) {
    At(chains, g, i, w) && At(chains, g, i + 1, v)
  }

  /** The map holds some position of every weapon in a chain, and no other weapons. */
  ghost predicate OrdersFrom(order: map<int, int>, chains: map<int, seq<Row>>) {
    && (forall w :: w in order ==> exists g :: At(chains, g, order[w], w))
    && (forall g, i, w :: At(chains, g, i, w) ==> w in order)
  }

  /** The map holds some successor of every weapon that has one, and no other weapons. */
  ghost predicate NextsFrom(next: map<int, int>, chains: map<int, seq<Row>>) {
    && (forall w :: w in next ==> exists g, i :: Before(chains, g, i, w, next[w]))
    && (forall g, i, w, v :: Before(chains, g, i, w, v) ==> w in next)
  }

  /** next with the successors of the chain's first n rows recorded over it. */
  function Recorded(next: map<int, int>, chain: seq<Row>, n: nat): map<int, int>
    requires n < |chain| || n == 0
  {
    if n == 0 then next else Recorded(next, chain, n - 1)[chain[n - 1].weapon := chain[n].weapon]
  }

  function Links(chain: seq<Row>): nat {
    if chain == [] then 0 else |chain| - 1
  }

  /** The successor map after the chains, visited in this order: a later chain, and a later row, wins. */
  function NextAfter(cs: seq<seq<Row>>): map<int, int> {
    if cs == [] then map[] else Recorded(NextAfter(cs[..|cs| - 1]), cs[|cs| - 1], Links(cs[|cs| - 1]))
  }

  /** The chains, each once, in some order. */
  ghost predicate Visits(chains: map<int, seq<Row>>, visited: seq<int>) {
    && (forall i, j :: 0 <= i < j < |visited| ==> visited[i] != visited[j])
    && (forall i :: 0 <= i < |visited| ==> visited[i] in chains)
    && (forall g :: g in chains ==> g in visited)
  }

  function InTurn(chains: map<int, seq<Row>>, visited: seq<int>): seq<seq<Row>>
    requires forall i :: 0 <= i < |visited| ==> visited[i] in chains
  {
    seq(|visited|, i requires 0 <= i < |visited| => chains[visited[i]])
  }

  lemma OneMorePlace(order: map<int, int>, chains: map<int, seq<Row>>, g: int, chain: seq<Row>, i: nat)
    requires i < |chain| && OrdersFrom(order, chains[g := chain[..i]])
    ensures OrdersFrom(order[chain[i].weapon := i], chains[g := chain[..i + 1]])
  {
    var shorter, longer, after := chains[g := chain[..i]], chains[g := chain[..i + 1]], order[chain[i].weapon := i];
    assert forall h, k, w :: At(longer, h, k, w) <==> At(shorter, h, k, w) || (h == g && k == i && w == chain[i].weapon);
    forall w | w in after ensures exists h :: At(longer, h, after[w], w) {
      if w == chain[i].weapon {
        assert At(longer, g, i, w);
      } else {
        var h :| At(shorter, h, order[w], w);
        assert At(longer, h, order[w], w);
      }
    }
  }

  lemma OneMoreLink(next: map<int, int>, chains: map<int, seq<Row>>, g: int, chain: seq<Row>, i: nat)
    requires i + 1 < |chain| && NextsFrom(next, chains[g := chain[..i + 1]])
    ensures NextsFrom(next[chain[i].weapon := chain[i + 1].weapon], chains[g := chain[..i + 2]])
  {
    var shorter, longer, after := chains[g := chain[..i + 1]], chains[g := chain[..i + 2]], next[chain[i].weapon := chain[i + 1].weapon];
    assert forall h, k, w, v :: Before(longer, h, k, w, v) <==>
      Before(shorter, h, k, w, v) || (h == g && k == i && w == chain[i].weapon && v == chain[i + 1].weapon);
    forall w | w in after ensures exists h, k :: Before(longer, h, k, w, after[w]) {
      if w == chain[i].weapon {
        assert Before(longer, g, i, w, chain[i + 1].weapon);
      } else {
        var h, k :| Before(shorter, h, k, w, next[w]);
        assert Before(longer, h, k, w, next[w]);
      }
    }
  }

  lemma NoRowsYet(order: map<int, int>, next: map<int, int>, chains: map<int, seq<Row>>, g: int, chain: seq<Row>)
    requires g !in chains && |chain| <= 1 && OrdersFrom(order, chains) && NextsFrom(next, chains)
    ensures OrdersFrom(order, chains[g := chain[..0]])
    ensures NextsFrom(next, chains[g := chain])
  {
    var longer, empty := chains[g := chain], chains[g := chain[..0]];
    assert forall h, k, w :: At(chains, h, k, w) <==> At(empty, h, k, w);
    assert forall h, k, w :: At(chains, h, k, w) ==> At(longer, h, k, w);
    assert forall h, k, w, v :: Before(longer, h, k, w, v) <==> Before(chains, h, k, w, v);
  }

  method RecordChain(g: int, chain: seq<Row>, ghost done: map<int, seq<Row>>, order0: map<int, int>, next0: map<int, int>)
    returns (order: map<int, int>, next: map<int, int>)
    requires g !in done && OrdersFrom(order0, done) && NextsFrom(next0, done)
    ensures OrdersFrom(order, done[g := chain]) && NextsFrom(next, done[g := chain])
    ensures next == Recorded(next0, chain, Links(chain))
  {
    hide OrdersFrom, NextsFrom;
    order, next := order0, next0;
    NoRowsYet(order, next, done, g, if chain == [] then [] else chain[..1]);
    assert (if chain == [] then [] else chain[..1])[..0] == chain[..0];
    for i := 0 to |chain|
      invariant OrdersFrom(order, done[g := chain[..i]])
      invariant NextsFrom(next, done[g := if i < |chain| then chain[..i + 1] else chain[..i]])
      invariant next == Recorded(next0, chain, if i < |chain| then i else Links(chain))
    {
      OneMorePlace(order, done, g, chain, i);
      order := order[chain[i].weapon := i];
      if i < |chain| - 1 {
        OneMoreLink(next, done, g, chain, i);
        next := next[chain[i].weapon := chain[i + 1].weapon];
      }
    }
    assert chain[..|chain|] == chain;
  }

  lemma OneMoreVisit(chains: map<int, seq<Row>>, visited: seq<int>, g: int, chain: seq<Row>)
    requires Visits(chains, visited) && g !in chains
    ensures Visits(chains[g := chain], visited + [g])
    ensures NextAfter(InTurn(chains[g := chain], visited + [g])) ==
            Recorded(NextAfter(InTurn(chains, visited)), chain, Links(chain))
  {
    var cs := InTurn(chains[g := chain], visited + [g]);
    assert cs[..|visited|] == InTurn(chains, visited);
  }

  /** EvolutionOrder and EvolutionNextWeaponId. */
  method BuildEvolution(rows: seq<Row>)
    returns (order: map<int, int>, next: map<int, int>, chains: map<int, seq<Row>>, ghost visited: seq<int>)
    ensures ChainsOf(rows, chains) && OrdersFrom(order, chains) && NextsFrom(next, chains)
    ensures Visits(chains, visited) && next == NextAfter(InTurn(chains, visited))
  {
    var grouped := GroupRows(rows);
    order, next, chains, visited := map[], map[], map[], [];
    var left := grouped.Keys;
    while left != {}
      invariant left <= grouped.Keys && chains.Keys == grouped.Keys - left
      invariant forall g :: g in chains ==> multiset(chains[g]) == multiset(grouped[g]) && InOrder(chains[g])
      invariant OrdersFrom(order, chains) && NextsFrom(next, chains)
      invariant Visits(chains, visited) && next == NextAfter(InTurn(chains, visited))
      decreases |left|
    {
      SomeInt(left);
      var g :| g in left;
      var chain := SortRows(grouped[g]);
      order, next := RecordChain(g, chain, chains, order, next);
      OneMoreVisit(chains, visited, g, chain);
      visited := visited + [g];
      chains := chains[g := chain];
      left := left - {g};
    }
  }

  // ---- One row per weapon ----

  predicate OneRowEach(rows: seq<Row>) {
    forall i, j :: 0 <= i < j < |rows| ==> rows[i].weapon != rows[j].weapon
  }

  lemma {:induction false} RowsOfIn(rows: seq<Row>, g: int, r: Row)
    ensures multiset(RowsOf(rows, g))[r] == if r.group == g then multiset(rows)[r] else 0
  {
    if rows != [] {
      RowsOfIn(rows[..|rows| - 1], g, r);
      assert rows == rows[..|rows| - 1] + [rows[|rows| - 1]];
    }
  }

  lemma CountTwice(s: seq<Row>, i: nat, j: nat)
    requires i < j < |s| && s[i] == s[j]
    ensures multiset(s)[s[i]] >= 2
  {
    assert s == s[..j] + [s[j]] + s[j + 1..];
    assert s[..j][i] == s[i];
  }

  lemma {:induction false} CountOnce(rows: seq<Row>, r: Row)
    requires OneRowEach(rows)
    ensures multiset(rows)[r] <= 1
  {
    if rows != [] {
      var n := |rows| - 1;
      CountOnce(rows[..n], r);
      assert rows == rows[..n] + [rows[n]];
      assert forall i :: 0 <= i < n ==> rows[i] != rows[n];
      assert rows[n] !in rows[..n];
    }
  }

  lemma ChainRow(rows: seq<Row>, chains: map<int, seq<Row>>, g: int, i: int)
    requires ChainsOf(rows, chains) && g in chains && 0 <= i < |chains[g]|
    ensures chains[g][i] in rows && chains[g][i].group == g
  {
    var r := chains[g][i];
    assert r in multiset(chains[g]);
    RowsOfIn(rows, g, r);
  }

  /** A weapon of one row is at one position of one chain. */
  lemma OnePlace(rows: seq<Row>, chains: map<int, seq<Row>>, g: int, i: int, h: int, j: int, w: int)
    requires ChainsOf(rows, chains) && OneRowEach(rows)
    requires At(chains, g, i, w) && At(chains, h, j, w)
    ensures g == h && i == j
  {
    ChainRow(rows, chains, g, i);
    ChainRow(rows, chains, h, j);
    var r := chains[g][i];
    assert r == chains[h][j];
    RowsOfIn(rows, g, r);
    CountOnce(rows, r);
    if i < j {
      CountTwice(chains[g], i, j);
    } else if j < i {
      CountTwice(chains[g], j, i);
    }
  }

  /** The catalog's maps say exactly where a weapon stands in its chain and which weapon comes next. */
  lemma MapsAreChains(rows: seq<Row>, chains: map<int, seq<Row>>, order: map<int, int>, next: map<int, int>, g: int, i: int, w: int)
    requires ChainsOf(rows, chains) && OneRowEach(rows)
    requires OrdersFrom(order, chains) && NextsFrom(next, chains)
    requires At(chains, g, i, w)
    ensures w in order && order[w] == i
    ensures w in next <==> i < |chains[g]| - 1
    ensures w in next ==> At(chains, g, i + 1, next[w])
  {
    var h :| At(chains, h, order[w], w);
    OnePlace(rows, chains, g, i, h, order[w], w);
    if i < |chains[g]| - 1 {
      assert Before(chains, g, i, w, chains[g][i + 1].weapon);
    }
    if w in next {
      var k, j :| Before(chains, k, j, w, next[w]);
      OnePlace(rows, chains, g, i, k, j, w);
    }
  }

  /** Every weapon that evolves stands one place before the weapon it evolves into, so no chain of evolutions
      comes back to a weapon. */
  ghost predicate Climbs(order: map<int, int>, next: map<int, int>, height: int) {
    && (forall w :: w in order ==> order[w] < height)
    && (forall w :: w in next ==> w in order && next[w] in order && order[next[w]] == order[w] + 1)
  }

  lemma EvolutionClimbs(rows: seq<Row>, chains: map<int, seq<Row>>, order: map<int, int>, next: map<int, int>)
    requires ChainsOf(rows, chains) && OneRowEach(rows)
    requires OrdersFrom(order, chains) && NextsFrom(next, chains)
    ensures Climbs(order, next, |rows|)
  {
    hide ChainsOf, OneRowEach;
    forall w | w in order ensures order[w] < |rows| {
      var g :| At(chains, g, order[w], w);
      ChainLength(rows, chains, g);
    }
    forall w | w in next ensures w in order && next[w] in order && order[next[w]] == order[w] + 1 {
      var g, i :| Before(chains, g, i, w, next[w]);
      MapsAreChains(rows, chains, order, next, g, i, w);
      MapsAreChains(rows, chains, order, next, g, i + 1, next[w]);
    }
  }

  lemma ChainLength(rows: seq<Row>, chains: map<int, seq<Row>>, g: int)
    requires ChainsOf(rows, chains) && g in chains
    ensures |chains[g]| <= |rows|
  {
    assert |multiset(chains[g])| == |multiset(RowsOf(rows, g))|;
    RowsOfLength(rows, g);
  }

  lemma {:induction false} RowsOfLength(rows: seq<Row>, g: int)
    ensures |RowsOf(rows, g)| <= |rows|
  {
    if rows != [] {
      RowsOfLength(rows[..|rows| - 1], g);
    }
  }

  // ---- The evolved set of the gacha pool ----

  ghost predicate EvolvedFrom(evolved: set<int>, chains: map<int, seq<Row>>) {
    forall w :: w in evolved <==> exists g, i :: i >= 1 && At(chains, g, i, w)
  }

  /** The pool groups and sorts the table for itself. */
  method BuildEvolvedWeaponSet(rows: seq<Row>) returns (evolved: set<int>, chains: map<int, seq<Row>>)
    ensures ChainsOf(rows, chains) && EvolvedFrom(evolved, chains)
  {
    var grouped := GroupRows(rows);
    evolved, chains := {}, map[];
    var left := grouped.Keys;
    while left != {}
      invariant left <= grouped.Keys && chains.Keys == grouped.Keys - left
      invariant forall g :: g in chains ==> multiset(chains[g]) == multiset(grouped[g]) && InOrder(chains[g])
      invariant EvolvedFrom(evolved, chains)
      decreases |left|
    {
      SomeInt(left);
      var g :| g in left;
      var chain := SortRows(grouped[g]);
      evolved := MarkEvolved(g, chain, chains, evolved);
      chains := chains[g := chain];
      left := left - {g};
    }
  }

  method MarkEvolved(g: int, chain: seq<Row>, ghost done: map<int, seq<Row>>, evolved0: set<int>) returns (evolved: set<int>)
    requires g !in done && EvolvedFrom(evolved0, done)
    ensures EvolvedFrom(evolved, done[g := chain])
  {
    evolved := evolved0;
    ghost var longer := done[g := chain];
    assert forall h, k, w :: At(longer, h, k, w) <==> At(done, h, k, w) || (h == g && 0 <= k < |chain| && chain[k].weapon == w);
    var i := 1;
    while i < |chain|
      invariant 1 <= i && (i <= |chain| || i == 1)
      invariant forall w :: w in evolved <==> w in evolved0 || exists k :: 1 <= k < i && k < |chain| && chain[k].weapon == w
    {
      evolved := evolved + {chain[i].weapon};
      i := i + 1;
    }
    forall w ensures w in evolved <==> exists h, k :: k >= 1 && At(longer, h, k, w) {
      if w in evolved {
        if w in evolved0 {
          var h, k :| k >= 1 && At(done, h, k, w);
          assert At(longer, h, k, w);
        } else {
          var k :| 1 <= k < |chain| && chain[k].weapon == w;
          assert At(longer, g, k, w);
        }
      }
    }
  }

  predicate DistinctOrders(rows: seq<Row>) {
    forall i, j :: 0 <= i < j < |rows| && rows[i].group == rows[j].group ==> rows[i].order != rows[j].order
  }

  lemma LastAgrees(a: seq<Row>, b: seq<Row>)
    requires multiset(a) == multiset(b) && InOrder(a) && InOrder(b)
    requires OrderTellsRow(a)
    ensures |a| == |b| && (a != [] ==> a[|a| - 1] == b[|b| - 1])
  {
    assert |multiset(a)| == |multiset(b)|;
    if a != [] {
      var n := |a| - 1;
      assert a[n] in multiset(b) && b[n] in multiset(a);
      var i :| 0 <= i < |b| && b[i] == a[n];
      var j :| 0 <= j < |a| && a[j] == b[n];
    }
  }

  predicate OrderTellsRow(chain: seq<Row>) {
    forall r, s :: r in chain && s in chain && r.order == s.order ==> r == s
  }

  lemma DropLast(a: seq<Row>, b: seq<Row>)
    requires |a| == |b| > 0 && a[|a| - 1] == b[|b| - 1] && multiset(a) == multiset(b)
    requires InOrder(a) && OrderTellsRow(a)
    ensures InOrder(a[..|a| - 1]) && OrderTellsRow(a[..|a| - 1])
    ensures multiset(a[..|a| - 1]) == multiset(b[..|b| - 1])
  {
    AllButLast(a);
    AllButLast(b);
  }

  lemma AllButLast(a: seq<Row>)
    requires a != []
    ensures multiset(a[..|a| - 1]) == multiset(a) - multiset{a[|a| - 1]}
    ensures forall r :: r in a[..|a| - 1] ==> r in a
  {
    assert a == a[..|a| - 1] + [a[|a| - 1]];
  }

  /** With distinct orders sorting has one outcome, so the catalog's chains and the pool's agree. */
  lemma {:induction false} SortIsUnique(a: seq<Row>, b: seq<Row>)
    requires multiset(a) == multiset(b) && InOrder(a) && InOrder(b) && OrderTellsRow(a)
    ensures a == b
    decreases a, 1
  {
    LastAgrees(a, b);
    if a != [] {
      SortRest(a, b);
      GlueLast(a, b);
    }
  }

  lemma SortRest(a: seq<Row>, b: seq<Row>)
    requires |a| == |b| > 0 && a[|a| - 1] == b[|b| - 1]
    requires multiset(a) == multiset(b) && InOrder(a) && InOrder(b) && OrderTellsRow(a)
    ensures a[..|a| - 1] == b[..|b| - 1]
    decreases a, 0
  {
    DropLast(a, b);
    assert InOrder(b[..|b| - 1]);
    hide InOrder, OrderTellsRow;
    SortIsUnique(a[..|a| - 1], b[..|b| - 1]);
  }

  lemma GlueLast(a: seq<Row>, b: seq<Row>)
    requires |a| == |b| > 0 && a[..|a| - 1] == b[..|b| - 1] && a[|a| - 1] == b[|b| - 1]
    ensures a == b
  {
    assert a == a[..|a| - 1] + [a[|a| - 1]] && b == b[..|b| - 1] + [b[|b| - 1]];
  }

  lemma ChainOrders(rows: seq<Row>, chains: map<int, seq<Row>>, g: int)
    requires ChainsOf(rows, chains) && DistinctOrders(rows) && g in chains
    ensures OrderTellsRow(chains[g])
  {
    forall r, s | r in chains[g] && s in chains[g] && r.order == s.order ensures r == s {
      var i :| 0 <= i < |chains[g]| && chains[g][i] == r;
      var j :| 0 <= j < |chains[g]| && chains[g][j] == s;
      ChainRow(rows, chains, g, i);
      ChainRow(rows, chains, g, j);
    }
  }

  lemma ChainsAgree(rows: seq<Row>, chains: map<int, seq<Row>>, others: map<int, seq<Row>>)
    requires ChainsOf(rows, chains) && ChainsOf(rows, others) && DistinctOrders(rows)
    ensures chains == others
  {
    forall g | g in chains ensures g in others && chains[g] == others[g] {
      ChainOrders(rows, chains, g);
      SortIsUnique(chains[g], others[g]);
    }
    assert forall g :: g in others ==> g in chains;
  }

  /** The set the pool builds is exactly the weapons the catalog puts above position 0. */
  lemma EvolvedAreAbove(rows: seq<Row>, chains: map<int, seq<Row>>, order: map<int, int>, next: map<int, int>,
                        evolved: set<int>, others: map<int, seq<Row>>, w: int)
    requires OneRowEach(rows) && DistinctOrders(rows)
    requires ChainsOf(rows, chains) && OrdersFrom(order, chains) && NextsFrom(next, chains)
    requires ChainsOf(rows, others) && EvolvedFrom(evolved, others)
    ensures w in evolved <==> w in order && order[w] > 0
  {
    hide ChainsOf, DistinctOrders, OneRowEach, NextsFrom;
    ChainsAgree(rows, chains, others);
    if w in evolved {
      var g, i :| i >= 1 && At(chains, g, i, w);
      MapsAreChains(rows, chains, order, next, g, i, w);
    }
    if w in order && order[w] > 0 {
      var g :| At(chains, g, order[w], w);
    }
  }

  // ---- Shared leveling ----

  /** The chain's first weapon is known to the catalog. */
  predicate Rooted(chains: map<int, seq<Row>>, weapons: map<int, int>, g: int) {
    g in chains && chains[g] != [] && chains[g][0].weapon in weapons
  }

  /** A member of a rooted chain has the enhance id of its first weapon. */
  ghost predicate Inherits(chains: map<int, seq<Row>>, weapons: map<int, int>, w: int, id: int) {
    exists g, i :: At(chains, g, i, w) && Rooted(chains, weapons, g) && weapons[chains[g][0].weapon] == id
  }

  ghost predicate LevelsFrom(leveling: map<int, int>, chains: map<int, seq<Row>>, weapons: map<int, int>) {
    && (forall w :: w in leveling ==> Inherits(chains, weapons, w, leveling[w]))
    && (forall g, i, w :: At(chains, g, i, w) && Rooted(chains, weapons, g) ==> w in leveling)
  }

  /** With every other known weapon under its own id. */
  ghost predicate LevelsOf(leveling: map<int, int>, chains: map<int, seq<Row>>, weapons: map<int, int>) {
    && (forall w :: w in leveling ==> Inherits(chains, weapons, w, leveling[w]) || OwnLevel(chains, weapons, w, leveling[w]))
    && (forall g, i, w :: At(chains, g, i, w) && Rooted(chains, weapons, g) ==> w in leveling)
    && (forall w :: w in weapons ==> w in leveling)
  }

  ghost predicate OwnLevel(chains: map<int, seq<Row>>, weapons: map<int, int>, w: int, id: int) {
    w in weapons && id == weapons[w] && forall other :: !Inherits(chains, weapons, w, other)
  }

  method LevelChain(g: int, chain: seq<Row>, ghost done: map<int, seq<Row>>, weapons: map<int, int>, leveling0: map<int, int>)
    returns (leveling: map<int, int>)
    requires g !in done && LevelsFrom(leveling0, done, weapons)
    ensures LevelsFrom(leveling, done[g := chain], weapons)
  {
    leveling := leveling0;
    ghost var longer := done[g := chain];
    assert forall h, k, w :: At(longer, h, k, w) <==> At(done, h, k, w) || (h == g && 0 <= k < |chain| && chain[k].weapon == w);
    assert forall h :: h in done ==> (Rooted(longer, weapons, h) <==> Rooted(done, weapons, h));
    assert forall w, id :: Inherits(done, weapons, w, id) ==> Inherits(longer, weapons, w, id) by {
      forall w, id | Inherits(done, weapons, w, id) ensures Inherits(longer, weapons, w, id) {
        var h, k :| At(done, h, k, w) && Rooted(done, weapons, h) && weapons[done[h][0].weapon] == id;
        assert At(longer, h, k, w) && Rooted(longer, weapons, h) && weapons[longer[h][0].weapon] == id;
      }
    }
    if chain == [] || chain[0].weapon !in weapons {
      assert !Rooted(longer, weapons, g);
      return;
    }
    var rootEnhanceId := weapons[chain[0].weapon];
    for i := 0 to |chain|
      invariant forall w :: w in leveling ==> Inherits(longer, weapons, w, leveling[w])
      invariant forall w :: w in leveling0 ==> w in leveling
      invariant forall k :: 0 <= k < i ==> chain[k].weapon in leveling
    {
      assert At(longer, g, i, chain[i].weapon) && Rooted(longer, weapons, g);
      leveling := leveling[chain[i].weapon := rootEnhanceId];
    }
  }

  /** LevelingEnhanceIdByWeaponId: chains first, then every other weapon under its own id. */
  method BuildLeveling(chains: map<int, seq<Row>>, weapons: map<int, int>) returns (leveling: map<int, int>)
    ensures LevelsOf(leveling, chains, weapons)
  {
    hide Rooted;
    var inherited := LevelChains(chains, weapons);
    leveling := inherited;
    var left := weapons.Keys;
    while left != {}
      invariant left <= weapons.Keys
      invariant forall w :: w in weapons && w !in left ==> w in leveling
      invariant forall w :: w in inherited ==> w in leveling && leveling[w] == inherited[w]
      invariant forall w :: w in leveling && w !in inherited ==> w in weapons && leveling[w] == weapons[w]
      decreases |left|
    {
      SomeInt(left);
      var w :| w in left;
      if w !in leveling {
        leveling := leveling[w := weapons[w]];
      }
      left := left - {w};
    }
  }

  method LevelChains(chains: map<int, seq<Row>>, weapons: map<int, int>) returns (leveling: map<int, int>)
    ensures LevelsFrom(leveling, chains, weapons)
  {
    hide LevelsFrom;
    leveling := map[];
    ghost var done: map<int, seq<Row>> := map[];
    assert LevelsFrom(leveling, done, weapons) by {
      NothingLeveled(weapons);
    }
    var left := chains.Keys;
    while left != {}
      invariant left <= chains.Keys && done.Keys == chains.Keys - left
      invariant forall g :: g in done ==> done[g] == chains[g]
      invariant LevelsFrom(leveling, done, weapons)
      decreases |left|
    {
      SomeInt(left);
      var g :| g in left;
      leveling := LevelChain(g, chains[g], done, weapons, leveling);
      done := done[g := chains[g]];
      left := left - {g};
    }
    SameMap(done, chains);
  }

  lemma SameMap(a: map<int, seq<Row>>, b: map<int, seq<Row>>)
    requires a.Keys == b.Keys && forall g :: g in a ==> a[g] == b[g]
    ensures a == b
  {
    forall g | g in b ensures g in a && a[g] == b[g] {
      assert g in a.Keys;
    }
  }

  lemma NothingLeveled(weapons: map<int, int>)
    ensures LevelsFrom(map[], map[], weapons)
  {
  }

  /** All members of a chain whose first weapon is known level under that weapon's id, so evolving, which
      stays in the chain, keeps the table the accumulated experience is read in. */
  lemma LevelingIsShared(rows: seq<Row>, chains: map<int, seq<Row>>, weapons: map<int, int>, leveling: map<int, int>,
                         g: int, i: int, w: int)
    requires ChainsOf(rows, chains) && OneRowEach(rows)
    requires LevelsOf(leveling, chains, weapons)
    requires At(chains, g, i, w)
    ensures Rooted(chains, weapons, g) ==> w in leveling && leveling[w] == weapons[chains[g][0].weapon]
    ensures !Rooted(chains, weapons, g) && w in leveling ==> w in weapons && leveling[w] == weapons[w]
  {
    if Rooted(chains, weapons, g) {
      assert Inherits(chains, weapons, w, weapons[chains[g][0].weapon]);
    }
    if w in leveling && Inherits(chains, weapons, w, leveling[w]) {
      var h, k :| At(chains, h, k, w) && Rooted(chains, weapons, h) && weapons[chains[h][0].weapon] == leveling[w];
      OnePlace(rows, chains, g, i, h, k, w);
    }
  }

  // ---- Enhancing to the level cap ----

  /** Mass upgrades give a weapon the experience of its cap, or all the table holds, and read its level back; on a
      sorted table the weapon ends on its cap exactly, or on the table's last level when the cap is beyond it. An
      empty table panics. */
  method EnhanceToCap(cap: int, thresholds: Option<seq<int>>, level0: int, exp0: int) returns (level: int, exp: int)
    requires thresholds.Some? && cap > 0 ==> thresholds.value != []
    ensures cap <= 0 ==> level == level0 && exp == exp0
    ensures cap > 0 && thresholds.None? ==> level == cap && exp == exp0
    ensures cap > 0 && thresholds.Some? && Experience.Sorted(thresholds.value) ==>
      var last := |thresholds.value| - 1;
      && exp == thresholds.value[if cap < last then cap else last]
      && level == if cap <= last then cap else if last > 1 then last else 1
  {
    level, exp := level0, exp0;
    if thresholds.Some? && cap > 0 {
      var table := thresholds.value;
      exp := if cap < |table| then table[cap] else table[|table| - 1];
      if Experience.Sorted(table) {
        Experience.LevelIsGreatest(exp, table);
      }
      level, exp := Experience.LevelAndCap(exp, table);
      if level > cap {
        level := cap;
      }
    } else if cap > 0 {
      level := cap;
    }
  }
}
