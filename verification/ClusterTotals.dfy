/**
 What the totals of Cluster.ClusterResources mean: sums over pods, for any
 order of containers and pods, exact where pod names are distinct on a node,
 and requests that stay below limits.
 */
module ClusterTotals {
  import opened Options
  import opened Cluster

  // ---- The order of containers does not matter -------------------------------

  lemma {:induction false} SumOfWithout(cs: seq<Container>, column: Column, r: string, j: nat)
    requires j < |cs|
    ensures SumOf(cs, column, r) == SumOf(cs[..j] + cs[j + 1..], column, r) + Amount(Of(cs[j], column), r)
  {
    var n := |cs| - 1;
    if j == n {
      assert cs[..j] + cs[j + 1..] == cs[..n];
    } else {
      SumOfWithout(cs[..n], column, r, j);
      var rest := cs[..j] + cs[j + 1..];
      assert rest[..|rest| - 1] == cs[..n][..j] + cs[..n][j + 1..];
      assert rest[|rest| - 1] == cs[n];
    }
  }

  lemma MultisetWithout(cs: seq<Container>, j: nat)
    requires j < |cs|
    ensures multiset(cs[..j] + cs[j + 1..]) == multiset(cs) - multiset{cs[j]}
  {
    assert cs == cs[..j] + [cs[j]] + cs[j + 1..];
  }

  lemma {:induction false} SumOfOrderFree(cs: seq<Container>, cs': seq<Container>, column: Column, r: string)
    requires multiset(cs) == multiset(cs')
    ensures SumOf(cs, column, r) == SumOf(cs', column, r)
    decreases |cs|
  {
    if cs == [] {
      assert |multiset(cs')| == 0;
    } else {
      var n := |cs| - 1;
      var c := cs[n];
      assert c in multiset(cs');
      var j :| 0 <= j < |cs'| && cs'[j] == c;
      assert cs[..n] + cs[n + 1..] == cs[..n];
      MultisetWithout(cs, n);
      MultisetWithout(cs', j);
      SumOfOrderFree(cs[..n], cs'[..j] + cs'[j + 1..], column, r);
      SumOfWithout(cs', column, r, j);
    }
  }

  lemma SameMembers(cs: seq<Container>, cs': seq<Container>)
    requires multiset(cs) == multiset(cs')
    ensures forall c :: c in cs <==> c in cs'
  {
    forall c
      ensures c in cs <==> c in cs'
    {
      assert c in cs <==> c in multiset(cs);
    }
  }

  lemma DeclaresIff(cs: seq<Container>, column: Column, r: string)
    ensures Declares(cs, column, r) <==> exists c :: c in cs && r in Of(c, column)
  {
    if c :| c in cs && r in Of(c, column) {
      var i :| 0 <= i < |cs| && cs[i] == c;
      assert r in Of(cs[i], column);
    }
  }

  lemma IsMaxIff(cs: seq<Container>, column: Column, r: string, m: int)
    ensures IsMax(cs, column, r, m) <==> (
              && (exists c :: c in cs && r in Of(c, column) && Of(c, column)[r] == m)
              && (forall c :: c in cs && r in Of(c, column) ==> Of(c, column)[r] <= m))
  {
    if c :| c in cs && r in Of(c, column) && Of(c, column)[r] == m {
      var i :| 0 <= i < |cs| && cs[i] == c;
      assert r in Of(cs[i], column);
    }
    if IsMax(cs, column, r, m) {
      var i :| 0 <= i < |cs| && r in Of(cs[i], column) && Of(cs[i], column)[r] == m;
      assert cs[i] in cs;
    }
  }

  // A pod counts the same however its two container lists are ordered.
  lemma EffectiveOrderFree(p: Pod, p': Pod, column: Column, r: string)
    requires multiset(p.containers) == multiset(p'.containers)
    requires multiset(p.initContainers) == multiset(p'.initContainers)
    ensures Effective(p, column, r) == Effective(p', column, r)
  {
    SumOfOrderFree(p.containers, p'.containers, column, r);
    SameMembers(p.containers, p'.containers);
    SameMembers(p.initContainers, p'.initContainers);
    DeclaresIff(p.containers, column, r);
    DeclaresIff(p'.containers, column, r);
    DeclaresIff(p.initContainers, column, r);
    DeclaresIff(p'.initContainers, column, r);
    if Declares(p.initContainers, column, r) {
      var m := MaxOf(p.initContainers, column, r);
      MaxOfIsMax(p.initContainers, column, r);
      IsMaxIff(p.initContainers, column, r, m);
      IsMaxIff(p'.initContainers, column, r, m);
      MaxOfIsMax(p'.initContainers, column, r);
      IsMaxUnique(p'.initContainers, column, r, m, MaxOf(p'.initContainers, column, r));
    }
  }

  // ---- What a pod counts for is the least that suffices --------------------------

  // The amount suffices to run the app containers together, and each init container
  // alone.
  ghost predicate Suffices(p: Pod, column: Column, r: string, m: int) {
    && (Declares(p.containers, column, r) ==> SumOf(p.containers, column, r) <= m)
    && forall c | c in p.initContainers && r in Of(c, column) :: Of(c, column)[r] <= m
  }

  lemma EffectiveIsLeast(p: Pod, column: Column, r: string, m: int)
    requires PodDeclares(p, column, r)
    ensures Suffices(p, column, r, m) <==> Effective(p, column, r) <= m
  {
    if Declares(p.initContainers, column, r) {
      MaxOfIsMax(p.initContainers, column, r);
      IsMaxIff(p.initContainers, column, r, MaxOf(p.initContainers, column, r));
    } else {
      DeclaresIff(p.initContainers, column, r);
    }
  }

  lemma UndeclaredIsNothing(p: Pod, column: Column, r: string)
    requires !PodDeclares(p, column, r)
    ensures Effective(p, column, r) == 0
  {
    UndeclaredSumsToZero(p.containers, column, r);
  }

  // ---- A node: the last pod of each name --------------------------------------

  predicate Named(pods: seq<Pod>, name: string) { exists i :: 0 <= i < |pods| && pods[i].name == name }

  // The plain sum over those pods that no later pod shares its name with.
  function SumOfLast(pods: seq<Pod>, column: Column, r: string): int {
    if pods == [] then 0
    else (if Named(pods[1..], pods[0].name) then 0 else Effective(pods[0], column, r)) + SumOfLast(pods[1..], column, r)
  }

  // The plain sum over all pods.
  function SumOfAll(pods: seq<Pod>, column: Column, r: string): int {
    if pods == [] then 0 else Effective(pods[0], column, r) + SumOfAll(pods[1..], column, r)
  }

  predicate DistinctNames(pods: seq<Pod>) {
    forall i, j | 0 <= i < j < |pods| :: pods[i].name != pods[j].name
  }

  lemma {:induction false} LastOfNameCons(p: Pod, pods: seq<Pod>)
    ensures LastOfName([p] + pods) == map[p.name := p] + LastOfName(pods)
  {
    var all, n := [p] + pods, |pods|;
    if pods == [] {
      assert all[..0] == [];
      assert LastOfName(all) == LastOfName([])[p.name := p];
    } else {
      assert all[..n] == [p] + pods[..n - 1] && all[n] == pods[n - 1];
      LastOfNameCons(p, pods[..n - 1]);
    }
  }

  lemma {:induction false} SumOverAgrees(names: set<string>, m: map<string, Pod>, m': map<string, Pod>,
                                         column: Column, r: string)
    requires names <= m.Keys && names <= m'.Keys && forall n | n in names :: m[n] == m'[n]
    ensures SumOver(names, m, column, r) == SumOver(names, m', column, r)
  {
    if names != {} {
      var n :| n in names;
      SumOverRemove(names, m, column, r, n);
      SumOverRemove(names, m', column, r, n);
      SumOverAgrees(names - {n}, m, m', column, r);
    }
  }

  lemma {:induction false} KeysAreNames(pods: seq<Pod>, name: string)
    ensures name in LastOfName(pods) <==> Named(pods, name)
  {
    if pods != [] {
      var n := |pods| - 1;
      KeysAreNames(pods[..n], name);
      if Named(pods[..n], name) {
        var i :| 0 <= i < n && pods[..n][i].name == name;
        assert pods[i].name == name;
      }
      if Named(pods, name) && pods[n].name != name {
        var i :| 0 <= i < |pods| && pods[i].name == name;
        assert pods[..n][i].name == name;
      }
    }
  }

  // One more pod in front counts unless a later pod has its name.
  lemma NodeSumCons(p: Pod, pods: seq<Pod>, column: Column, r: string)
    ensures NodeSum([p] + pods, column, r)
         == (if Named(pods, p.name) then 0 else Effective(p, column, r)) + NodeSum(pods, column, r)
  {
    LastOfNameCons(p, pods);
    KeysAreNames(pods, p.name);
    var m, m' := LastOfName(pods), LastOfName([p] + pods);
    SumOverAgrees(m.Keys, m, m', column, r);
    if p.name in m {
      assert m'.Keys == m.Keys;
    } else {
      assert m'.Keys - {p.name} == m.Keys;
      SumOverRemove(m'.Keys, m', column, r, p.name);
    }
  }

  // However the table is walked, a node's aggregate is the sum over the last pod
  // of each name.
  lemma {:induction false} NodeSumIsSumOfLast(pods: seq<Pod>, column: Column, r: string)
    ensures NodeSum(pods, column, r) == SumOfLast(pods, column, r)
  {
    if pods != [] {
      assert pods == [pods[0]] + pods[1..];
      NodeSumCons(pods[0], pods[1..], column, r);
      NodeSumIsSumOfLast(pods[1..], column, r);
    }
  }

  lemma {:induction false} DistinctSumsAll(pods: seq<Pod>, column: Column, r: string)
    requires DistinctNames(pods)
    ensures SumOfLast(pods, column, r) == SumOfAll(pods, column, r)
  {
    if pods != [] {
      assert !Named(pods[1..], pods[0].name);
      assert DistinctNames(pods[1..]);
      DistinctSumsAll(pods[1..], column, r);
    }
  }

  lemma {:induction false} LastSumsNoMore(pods: seq<Pod>, column: Column, r: string)
    requires NonNegative(pods, column, r)
    ensures 0 <= SumOfLast(pods, column, r) <= SumOfAll(pods, column, r)
  {
    if pods != [] {
      LastSumsNoMore(pods[1..], column, r);
    }
  }

  // A later pod of the list has the name of this one.
  predicate Hidden(pods: seq<Pod>, i: nat)
    requires i < |pods|
  {
    Named(pods[i + 1..], pods[i].name)
  }

  // Every pod that is hidden would count for nothing anyway.
  ghost predicate NothingHidden(pods: seq<Pod>, column: Column, r: string) {
    forall i | 0 <= i < |pods| && Hidden(pods, i) :: Effective(pods[i], column, r) == 0
  }

  ghost predicate NonNegative(pods: seq<Pod>, column: Column, r: string) {
    forall i | 0 <= i < |pods| :: Effective(pods[i], column, r) >= 0
  }

  lemma NothingHiddenCons(pods: seq<Pod>, column: Column, r: string)
    requires pods != []
    ensures NothingHidden(pods, column, r) <==>
      (Hidden(pods, 0) ==> Effective(pods[0], column, r) == 0) && NothingHidden(pods[1..], column, r)
  {
    forall i | 0 <= i < |pods| - 1
      ensures Hidden(pods, i + 1) <==> Hidden(pods[1..], i)
    {
      assert pods[i + 2..] == pods[1..][i + 1..];
    }
    if NothingHidden(pods, column, r) {
      forall i | 0 <= i < |pods| - 1 && Hidden(pods[1..], i)
        ensures Effective(pods[1..][i], column, r) == 0
      {
        assert Hidden(pods, i + 1);
      }
    }
    if (Hidden(pods, 0) ==> Effective(pods[0], column, r) == 0) && NothingHidden(pods[1..], column, r) {
      forall i | 0 <= i < |pods| && Hidden(pods, i)
        ensures Effective(pods[i], column, r) == 0
      {
        if i > 0 {
          assert Hidden(pods[1..], i - 1);
        }
      }
    }
  }

  // With nothing negative, no pod's amount is lost exactly when nothing is hidden.
  lemma {:induction false} LastSumsAllIff(pods: seq<Pod>, column: Column, r: string)
    requires NonNegative(pods, column, r)
    ensures SumOfLast(pods, column, r) == SumOfAll(pods, column, r) <==> NothingHidden(pods, column, r)
  {
    if pods != [] {
      LastSumsAllIff(pods[1..], column, r);
      LastSumsNoMore(pods[1..], column, r);
      NothingHiddenCons(pods, column, r);
    }
  }

  function ColumnOf(f: Figure): Column { if f.Requested? then Requests else Limits }

  // Whatever the names, the pod count is of all live pods; and where nothing is
  // negative a node's aggregate is at most the sum over all of them, and is that sum
  // exactly when nothing is hidden.
  lemma DuplicateNamesUndercount(n: Node, f: Figure, r: string)
    requires n.pods.Listed? && (f.Requested? || f.Limited?) && r != PODS
    requires NonNegative(LivePods(n.pods.items), ColumnOf(f), r)
    ensures NodeFigure(n, f, r) == SumOfLast(LivePods(n.pods.items), ColumnOf(f), r)
    ensures 0 <= NodeFigure(n, f, r) <= SumOfAll(LivePods(n.pods.items), ColumnOf(f), r)
    ensures NodeFigure(n, f, r) == SumOfAll(LivePods(n.pods.items), ColumnOf(f), r) <==>
      NothingHidden(LivePods(n.pods.items), ColumnOf(f), r)
  {
    var live := LivePods(n.pods.items);
    NodeSumIsSumOfLast(live, ColumnOf(f), r);
    LastSumsNoMore(live, ColumnOf(f), r);
    LastSumsAllIff(live, ColumnOf(f), r);
  }

  // ---- Conservation --------------------------------------------------------------

  function GrandSum(nodes: seq<Node>, column: Column, r: string): int {
    if nodes == [] then 0
    else
      var n := nodes[|nodes| - 1];
      GrandSum(nodes[..|nodes| - 1], column, r)
      + if n.pods.Listed? then SumOfAll(LivePods(n.pods.items), column, r) else 0
  }

  function PodCount(nodes: seq<Node>): nat {
    if nodes == [] then 0
    else
      var n := nodes[|nodes| - 1];
      PodCount(nodes[..|nodes| - 1]) + if n.pods.Listed? then |LivePods(n.pods.items)| else 0
  }

  ghost predicate NamesDistinct(nodes: seq<Node>) {
    forall i | 0 <= i < |nodes| && nodes[i].pods.Listed? :: DistinctNames(LivePods(nodes[i].pods.items))
  }

  ghost predicate NoPodDeclaresPods(nodes: seq<Node>, column: Column) {
    forall i | 0 <= i < |nodes| && nodes[i].pods.Listed? ::
      forall p | p in LivePods(nodes[i].pods.items) :: !PodDeclares(p, column, PODS)
  }

  // With distinct names on each node nothing is lost and nothing counted twice:
  // the totals are the sums over the live pods of the nodes that could be listed,
  // and the requested pods are that plus their number.
  lemma {:induction false} TotalsConserved(nodes: seq<Node>, r: string)
    requires NamesDistinct(nodes)
    ensures Total(nodes, Limited, r) == GrandSum(nodes, Limits, r)
    ensures Total(nodes, Requested, r) == GrandSum(nodes, Requests, r) + if r == PODS then PodCount(nodes) else 0
  {
    if nodes != [] {
      var k := |nodes| - 1;
      assert NamesDistinct(nodes[..k]);
      TotalsConserved(nodes[..k], r);
      if nodes[k].pods.Listed? {
        var live := LivePods(nodes[k].pods.items);
        NodeSumIsSumOfLast(live, Requests, r);
        NodeSumIsSumOfLast(live, Limits, r);
        DistinctSumsAll(live, Requests, r);
        DistinctSumsAll(live, Limits, r);
      }
    }
  }

  lemma {:induction false} UndeclaredAddsNothing(pods: seq<Pod>, column: Column, r: string)
    requires forall p | p in pods :: !PodDeclares(p, column, r)
    ensures SumOfAll(pods, column, r) == 0
  {
    if pods != [] {
      assert pods[0] in pods;
      UndeclaredSumsToZero(pods[0].containers, column, r);
      UndeclaredAddsNothing(pods[1..], column, r);
    }
  }

  // The nodes that could be listed have no hidden pod that counts for something.
  ghost predicate NowhereHidden(nodes: seq<Node>, column: Column, r: string) {
    forall i | 0 <= i < |nodes| && nodes[i].pods.Listed? :: NothingHidden(LivePods(nodes[i].pods.items), column, r)
  }

  ghost predicate AllNonNegative(nodes: seq<Node>, column: Column, r: string) {
    forall i | 0 <= i < |nodes| && nodes[i].pods.Listed? :: NonNegative(LivePods(nodes[i].pods.items), column, r)
  }

  function PodsAmong(nodes: seq<Node>, f: Figure, r: string): nat {
    if f.Requested? && r == PODS then PodCount(nodes) else 0
  }

  lemma NowhereHiddenSnoc(nodes: seq<Node>, column: Column, r: string)
    requires nodes != []
    ensures var k := |nodes| - 1;
            NowhereHidden(nodes, column, r) <==> (
              && NowhereHidden(nodes[..k], column, r)
              && (nodes[k].pods.Listed? ==> NothingHidden(LivePods(nodes[k].pods.items), column, r)))
  {
    assert forall i | 0 <= i < |nodes| - 1 :: nodes[..|nodes| - 1][i] == nodes[i];
  }

  lemma NodeConservedIff(n: Node, f: Figure, r: string)
    requires n.pods.Listed? && (f.Requested? || f.Limited?)
    requires NonNegative(LivePods(n.pods.items), ColumnOf(f), r)
    ensures var live := LivePods(n.pods.items);
            var all := SumOfAll(live, ColumnOf(f), r) + if f.Requested? && r == PODS then |live| else 0;
            NodeFigure(n, f, r) <= all && (NodeFigure(n, f, r) == all <==> NothingHidden(live, ColumnOf(f), r))
  {
    var live := LivePods(n.pods.items);
    NodeSumIsSumOfLast(live, ColumnOf(f), r);
    LastSumsNoMore(live, ColumnOf(f), r);
    LastSumsAllIff(live, ColumnOf(f), r);
  }

  // Whatever the names, with nothing negative: a total is at most what it should be,
  // and is that exactly when no node hides a pod that counts.
  lemma {:induction false} TotalsConservedIff(nodes: seq<Node>, f: Figure, r: string)
    requires f.Requested? || f.Limited?
    requires AllNonNegative(nodes, ColumnOf(f), r)
    ensures Total(nodes, f, r) <= GrandSum(nodes, ColumnOf(f), r) + PodsAmong(nodes, f, r)
    ensures Total(nodes, f, r) == GrandSum(nodes, ColumnOf(f), r) + PodsAmong(nodes, f, r) <==>
              NowhereHidden(nodes, ColumnOf(f), r)
  {
    if nodes != [] {
      var k := |nodes| - 1;
      assert forall i | 0 <= i < k :: nodes[..k][i] == nodes[i];
      TotalsConservedIff(nodes[..k], f, r);
      NowhereHiddenSnoc(nodes, ColumnOf(f), r);
      if nodes[k].pods.Listed? {
        NodeConservedIff(nodes[k], f, r);
      }
    }
  }

  // Pods are namespaced and their names are unique within a namespace only. Of two
  // live pods of one name on one node the second alone counts, but both are counted.
  lemma NamesakesFallShort(p: Pod, q: Pod, r: string)
    requires IsLive(p) && IsLive(q) && p.name == q.name
    ensures var nodes := [Node(None, None, Listed([p, q]))];
            && GrandSum(nodes, Requests, r) == Effective(p, Requests, r) + Effective(q, Requests, r)
            && PodCount(nodes) == 2
            && Total(nodes, Requested, r) == Effective(q, Requests, r) + if r == PODS then 2 else 0
  {
    var pods, nodes := [p, q], [Node(None, None, Listed([p, q]))];
    LiveTwo(p, q);
    assert nodes[..0] == [];
    SumTwo(p, q, r);
    NodeSumIsSumOfLast(pods, Requests, r);
  }

  lemma LiveTwo(p: Pod, q: Pod)
    requires IsLive(p) && IsLive(q)
    ensures LivePods([p, q]) == [p, q]
  {
    assert [p, q][..1] == [p] && [p][..0] == [];
    assert LivePods([p]) == [p];
  }

  lemma SumTwo(p: Pod, q: Pod, r: string)
    requires p.name == q.name
    ensures SumOfLast([p, q], Requests, r) == Effective(q, Requests, r)
    ensures SumOfAll([p, q], Requests, r) == Effective(p, Requests, r) + Effective(q, Requests, r)
  {
    var two, one, none: seq<Pod> := [p, q], [q], [];
    assert two[1..] == one && one[1..] == none;
    assert one[0].name == p.name;
    assert SumOfLast(none, Requests, r) == 0 && SumOfAll(none, Requests, r) == 0;
    assert SumOfLast(one, Requests, r) == Effective(q, Requests, r) == SumOfAll(one, Requests, r);
  }

  // Two pods "web" that ask for 1 and for 2: the total is 2, of 3.
  const WEB1 := Pod("web", "node", "Running", false, [Container(map[CPU := 1], map[])], [])
  const WEB2 := Pod("web", "node", "Running", false, [Container(map[CPU := 2], map[])], [])

  lemma TwoWebsFallShort()
    ensures var nodes := [Node(None, None, Listed([WEB1, WEB2]))];
            Total(nodes, Requested, CPU) == 2 && GrandSum(nodes, Requests, CPU) == 3
  {
    OneContainer(WEB1, CPU, 1);
    OneContainer(WEB2, CPU, 2);
    assert CPU != PODS by {
      assert |CPU| != |PODS|;
    }
    NamesakesFallShort(WEB1, WEB2, CPU);
  }

  lemma OneContainer(p: Pod, r: string, n: int)
    requires |p.containers| == 1 && p.containers[0].requests == map[r := n] && p.initContainers == []
    ensures Effective(p, Requests, r) == n
  {
    var cs := p.containers;
    assert cs[..0] == [] && Of(cs[0], Requests) == map[r := n];
    assert r in Of(cs[0], Requests);
    assert Declares(cs, Requests, r);
    assert SumOf(cs, Requests, r) == SumOf(cs[..0], Requests, r) + n;
    assert !Declares(p.initContainers, Requests, r);
  }

  // Where no container declares "pods", that total is the number of live pods,
  // whatever their names.
  lemma RequestedPodsIsTheirNumber(nodes: seq<Node>)
    requires NoPodDeclaresPods(nodes, Requests)
    ensures Total(nodes, Requested, PODS) == PodCount(nodes)
  {
    forall i | 0 <= i < |nodes| && nodes[i].pods.Listed?
      ensures NonNegative(LivePods(nodes[i].pods.items), Requests, PODS)
      ensures NothingHidden(LivePods(nodes[i].pods.items), Requests, PODS)
    {
      UndeclaredCountsForNothing(LivePods(nodes[i].pods.items), Requests, PODS);
    }
    TotalsConservedIff(nodes, Requested, PODS);
    NothingDeclared(nodes);
  }

  lemma UndeclaredCountsForNothing(pods: seq<Pod>, column: Column, r: string)
    requires forall p | p in pods :: !PodDeclares(p, column, r)
    ensures forall i | 0 <= i < |pods| :: Effective(pods[i], column, r) == 0
  {
    forall i | 0 <= i < |pods|
      ensures Effective(pods[i], column, r) == 0
    {
      assert pods[i] in pods;
      UndeclaredSumsToZero(pods[i].containers, column, r);
    }
  }

  lemma {:induction false} NothingDeclared(nodes: seq<Node>)
    requires NoPodDeclaresPods(nodes, Requests)
    ensures GrandSum(nodes, Requests, PODS) == 0
  {
    if nodes != [] {
      var k := |nodes| - 1;
      assert NoPodDeclaresPods(nodes[..k], Requests);
      NothingDeclared(nodes[..k]);
      if nodes[k].pods.Listed? {
        UndeclaredAddsNothing(LivePods(nodes[k].pods.items), Requests, PODS);
      }
    }
  }

  // ---- Dominance -------------------------------------------------------------------

  // Every request has a limit at least as large, and no limit is negative.
  ghost predicate Dominated(cs: seq<Container>, r: string) {
    forall i | 0 <= i < |cs| ::
      && (r in cs[i].requests ==> r in cs[i].limits && cs[i].requests[r] <= cs[i].limits[r])
      && (r in cs[i].limits ==> 0 <= cs[i].limits[r])
  }

  lemma {:induction false} SumsDominated(cs: seq<Container>, r: string)
    requires Dominated(cs, r)
    ensures SumOf(cs, Requests, r) <= SumOf(cs, Limits, r) && 0 <= SumOf(cs, Limits, r)
  {
    if cs != [] {
      var n := |cs| - 1;
      assert Dominated(cs[..n], r);
      SumsDominated(cs[..n], r);
      assert Of(cs[n], Requests) == cs[n].requests && Of(cs[n], Limits) == cs[n].limits;
    }
  }

  lemma MaximaDominated(cs: seq<Container>, r: string)
    requires Dominated(cs, r)
    ensures Declares(cs, Requests, r) ==>
      Declares(cs, Limits, r) && MaxOf(cs, Requests, r) <= MaxOf(cs, Limits, r)
    ensures Declares(cs, Limits, r) ==> 0 <= MaxOf(cs, Limits, r)
  {
    if Declares(cs, Limits, r) {
      MaxOfIsMax(cs, Limits, r);
    }
    if Declares(cs, Requests, r) {
      MaxOfIsMax(cs, Requests, r);
      var i :| 0 <= i < |cs| && r in Of(cs[i], Requests) && Of(cs[i], Requests)[r] == MaxOf(cs, Requests, r);
      assert r in Of(cs[i], Limits);
      MaxOfIsMax(cs, Limits, r);
    }
  }

  lemma PodDominated(p: Pod, r: string)
    requires Dominated(p.containers, r) && Dominated(p.initContainers, r)
    ensures Effective(p, Requests, r) <= Effective(p, Limits, r)
  {
    SumsDominated(p.containers, r);
    MaximaDominated(p.containers, r);
    MaximaDominated(p.initContainers, r);
    if !Declares(p.containers, Requests, r) {
      UndeclaredSumsToZero(p.containers, Requests, r);
    }
  }

  ghost predicate PodsDominated(pods: seq<Pod>, r: string) {
    forall p | p in pods :: Dominated(p.containers, r) && Dominated(p.initContainers, r)
  }

  lemma {:induction false} NodeDominated(pods: seq<Pod>, r: string)
    requires PodsDominated(pods, r)
    ensures SumOfLast(pods, Requests, r) <= SumOfLast(pods, Limits, r)
  {
    if pods != [] {
      PodDominated(pods[0], r);
      NodeDominated(pods[1..], r);
    }
  }

  // Dominance of every container carries through to the totals, duplicate pod
  // names or not.
  lemma {:induction false} TotalsDominated(nodes: seq<Node>, r: string)
    requires r != PODS
    requires forall i | 0 <= i < |nodes| && nodes[i].pods.Listed? :: PodsDominated(LivePods(nodes[i].pods.items), r)
    ensures Total(nodes, Requested, r) <= Total(nodes, Limited, r)
  {
    if nodes != [] {
      var k := |nodes| - 1;
      assert forall i | 0 <= i < k :: nodes[..k][i] == nodes[i];
      TotalsDominated(nodes[..k], r);
      if nodes[k].pods.Listed? {
        var live := LivePods(nodes[k].pods.items);
        NodeSumIsSumOfLast(live, Requests, r);
        NodeSumIsSumOfLast(live, Limits, r);
        NodeDominated(live, r);
      }
    }
  }

  function AmountIn(m: Option<Amounts>, r: string): int { if m.Some? && r in m.value then m.value[r] else 0 }

  // What can be given is no more than what there is, if it is so on every listed node.
  lemma {:induction false} AllocatableWithinCapacity(nodes: seq<Node>, r: string)
    requires forall n | n in nodes && n.pods.Listed? ::
               AmountIn(n.allocatable, r) <= AmountIn(n.capacity, r)
    ensures AllocatableSum(nodes, r) <= CapacitySum(nodes, r)
  {
    if nodes != [] {
      AllocatableWithinCapacity(nodes[1..], r);
      assert nodes[0] in nodes;
    }
  }
}
