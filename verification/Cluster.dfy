/**
 Cluster resource totals (backend/cluster.go).

 Go maps are iterated in no fixed order: every loop over a map below picks its
 next key arbitrarily, so what is proved holds for every iteration order.
 Quantities are integers in one unit.
 */
module Cluster {
  import opened Options

  type Amounts = map<string, int>

  const PODS := "pods"
  const MEMORY := "memory"
  const CPU := "cpu"

  datatype Container = Container(requests: Amounts, limits: Amounts)
  datatype Pod = Pod(name: string, nodeName: string, phase: string, deleting: bool,
                     containers: seq<Container>, initContainers: seq<Container>)

  // Pods lists a node's pods, or is the failure to list them. A nil map is None.
  datatype Pods = Listed(items: seq<Pod>) | Unlisted
  datatype Node = Node(capacity: Option<Amounts>, allocatable: Option<Amounts>, pods: Pods)

  datatype Resources = Resources(capacity: Option<Amounts>, allocatable: Option<Amounts>,
                                 requested: Option<Amounts>, limits: Option<Amounts>)

  // ResourceList.Cpu, Memory and Pods: a missing entry counts as zero.
  function Amount(m: Amounts, r: string): int { if r in m then m[r] else 0 }

  function Max(a: int, b: int): int { if a < b then b else a }

  // ---- What a pod needs --------------------------------------------------

  // Which of its two columns a container is asked for.
  datatype Column = Requests | Limits

  function Of(c: Container, column: Column): Amounts { if column.Requests? then c.requests else c.limits }

  predicate Declares(cs: seq<Container>, column: Column, r: string) {
    exists i :: 0 <= i < |cs| && r in Of(cs[i], column)
  }

  // The sum over app containers, which run together.
  function SumOf(cs: seq<Container>, column: Column, r: string): int {
    if cs == [] then 0 else SumOf(cs[..|cs| - 1], column, r) + Amount(Of(cs[|cs| - 1], column), r)
  }

  // m is the largest amount of those that declare one.
  ghost predicate IsMax(cs: seq<Container>, column: Column, r: string, m: int) {
    && (exists i :: 0 <= i < |cs| && r in Of(cs[i], column) && Of(cs[i], column)[r] == m)
    && (forall i | 0 <= i < |cs| && r in Of(cs[i], column) :: Of(cs[i], column)[r] <= m)
  }

  // What a pod effectively needs of r: its app containers' sum or the largest of
  // its init containers, which run one at a time, whichever is more.
  ghost predicate IsEffective(p: Pod, column: Column, r: string, m: int) {
    var app, init := Declares(p.containers, column, r), Declares(p.initContainers, column, r);
    if app && init then
      exists x :: IsMax(p.initContainers, column, r, x) && m == Max(SumOf(p.containers, column, r), x)
    else if app then m == SumOf(p.containers, column, r)
    else IsMax(p.initContainers, column, r, m)
  }

  predicate PodDeclares(p: Pod, column: Column, r: string) {
    Declares(p.containers, column, r) || Declares(p.initContainers, column, r)
  }

  // addMap, as the loop leaves data2.
  function Added(data1: Amounts, data2: Amounts): Amounts {
    map r | r in data1.Keys + data2.Keys :: Amount(data1, r) + Amount(data2, r)
  }

  // addMapForInit
  function Raised(data1: Amounts, data2: Amounts): Amounts {
    map r | r in data1.Keys + data2.Keys ::
      if r !in data1 then data2[r] else if r !in data2 then data1[r] else Max(data1[r], data2[r])
  }

  // A Go map: a reference to a table updated in place.
  class Table {
    var m: Amounts

    constructor ()
      ensures m == map[]
    {
      m := map[];
    }
  }

  method AddMap(data1: Amounts, data2: Table)
    modifies data2
    ensures data2.m == Added(data1, old(data2.m))
  {
    var todo := data1.Keys;
    ghost var was := data2.m;
    while todo != {}
      invariant todo <= data1.Keys
      invariant data2.m.Keys == (data1.Keys - todo) + was.Keys
      invariant forall r | r in data2.m ::
        data2.m[r] == (if r in data1.Keys - todo then data1[r] else 0) + Amount(was, r)
    {
      var name :| name in todo;
      todo := todo - {name};
      if name !in data2.m {
        data2.m := data2.m[name := data1[name]];
      } else {
        data2.m := data2.m[name := data2.m[name] + data1[name]];
      }
    }
  }

  method AddMapForInit(data1: Amounts, data2: Table)
    modifies data2
    ensures data2.m == Raised(data1, old(data2.m))
  {
    var todo := data1.Keys;
    ghost var was := data2.m;
    while todo != {}
      invariant todo <= data1.Keys
      invariant data2.m.Keys == (data1.Keys - todo) + was.Keys
      invariant forall r | r in data2.m ::
        data2.m[r] == if r !in data1.Keys - todo then was[r] else if r !in was then data1[r] else Max(data1[r], was[r])
    {
      var name :| name in todo;
      todo := todo - {name};
      if name !in data2.m {
        data2.m := data2.m[name := data1[name]];
      } else if data1[name] > data2.m[name] {
        data2.m := data2.m[name := data1[name]];
      }
    }
  }

  // A column of a pod's data is right when it holds, for each resource some
  // container declares, exactly the effective amount.
  ghost predicate IsPodData(p: Pod, column: Column, data: Amounts) {
    forall r :: (r in data <==> PodDeclares(p, column, r)) && (r in data ==> IsEffective(p, column, r, data[r]))
  }

  ghost predicate IsAppData(cs: seq<Container>, column: Column, data: Amounts) {
    forall r :: (r in data <==> Declares(cs, column, r)) && (r in data ==> data[r] == SumOf(cs, column, r))
  }

  lemma DeclaresOneMore(cs: seq<Container>, column: Column, i: nat, r: string)
    requires i < |cs|
    ensures Declares(cs[..i + 1], column, r) <==> Declares(cs[..i], column, r) || r in Of(cs[i], column)
    ensures SumOf(cs[..i + 1], column, r) == SumOf(cs[..i], column, r) + Amount(Of(cs[i], column), r)
  {
    assert cs[..i + 1][..i] == cs[..i];
    assert cs[..i + 1][i] == cs[i];
    if Declares(cs[..i], column, r) {
      var j :| 0 <= j < i && r in Of(cs[..i][j], column);
      assert cs[..i + 1][j] == cs[j];
    }
  }

  lemma {:induction false} UndeclaredSumsToZero(cs: seq<Container>, column: Column, r: string)
    requires !Declares(cs, column, r)
    ensures SumOf(cs, column, r) == 0
  {
    if cs != [] {
      var n := |cs| - 1;
      assert cs[..n + 1] == cs;
      DeclaresOneMore(cs, column, n, r);
      UndeclaredSumsToZero(cs[..n], column, r);
    }
  }

  lemma AppStep(cs: seq<Container>, column: Column, i: nat, data: Amounts)
    requires i < |cs| && IsAppData(cs[..i], column, data)
    ensures IsAppData(cs[..i + 1], column, Added(Of(cs[i], column), data))
  {
    var next := Added(Of(cs[i], column), data);
    forall r
      ensures r in next <==> Declares(cs[..i + 1], column, r)
      ensures r in next ==> next[r] == SumOf(cs[..i + 1], column, r)
    {
      DeclaresOneMore(cs, column, i, r);
      if r !in data {
        UndeclaredSumsToZero(cs[..i], column, r);
      }
    }
  }

  lemma IsMaxOneMore(cs: seq<Container>, column: Column, i: nat, r: string, m: int)
    requires i < |cs|
    ensures r !in Of(cs[i], column) ==> (IsMax(cs[..i], column, r, m) <==> IsMax(cs[..i + 1], column, r, m))
    ensures r in Of(cs[i], column) && !Declares(cs[..i], column, r) ==>
              IsMax(cs[..i + 1], column, r, Of(cs[i], column)[r])
    ensures r in Of(cs[i], column) && IsMax(cs[..i], column, r, m) ==>
      IsMax(cs[..i + 1], column, r, Max(Of(cs[i], column)[r], m))
  {
    var a, b := cs[..i], cs[..i + 1];
    assert forall j | 0 <= j < i :: a[j] == b[j];
    assert b[i] == cs[i];
    if IsMax(a, column, r, m) {
      var j :| 0 <= j < |a| && r in Of(a[j], column) && Of(a[j], column)[r] == m;
      assert Of(b[j], column)[r] == m;
    }
    if r !in Of(cs[i], column) && IsMax(b, column, r, m) {
      var j :| 0 <= j < |b| && r in Of(b[j], column) && Of(b[j], column)[r] == m;
      assert Of(a[j], column)[r] == m;
    }
    if r in Of(cs[i], column) && !Declares(a, column, r) {
      assert forall j | 0 <= j < i :: r !in Of(a[j], column);
    }
  }

  lemma InitStep(p: Pod, column: Column, i: nat, data: Amounts)
    requires i < |p.initContainers| && IsPodData(p.(initContainers := p.initContainers[..i]), column, data)
    ensures var next := p.(initContainers := p.initContainers[..i + 1]);
            IsPodData(next, column, Raised(Of(p.initContainers[i], column), data))
  {
    var cs := p.initContainers;
    var here := Of(cs[i], column);
    var next, q, q' := Raised(here, data), p.(initContainers := cs[..i]), p.(initContainers := cs[..i + 1]);
    forall r
      ensures r in next <==> PodDeclares(q', column, r)
      ensures r in next ==> IsEffective(q', column, r, next[r])
    {
      DeclaresOneMore(cs, column, i, r);
      if r in next {
        InitStepAt(p, column, i, r, data, next[r]);
      }
    }
  }

  lemma InitStepAt(p: Pod, column: Column, i: nat, r: string, data: Amounts, m: int)
    requires i < |p.initContainers| && IsPodData(p.(initContainers := p.initContainers[..i]), column, data)
    requires var here := Of(p.initContainers[i], column);
             r in Raised(here, data) && m == Raised(here, data)[r]
    ensures IsEffective(p.(initContainers := p.initContainers[..i + 1]), column, r, m)
  {
    var cs := p.initContainers;
    var here := Of(cs[i], column);
    DeclaresOneMore(cs, column, i, r);
    if r in data {
      assert IsEffective(p.(initContainers := cs[..i]), column, r, data[r]);
      if Declares(cs[..i], column, r) {
        var x :| IsMax(cs[..i], column, r, x)
              && data[r] == if Declares(p.containers, column, r) then Max(SumOf(p.containers, column, r), x) else x;
        IsMaxOneMore(cs, column, i, r, x);
        if r in here {
          assert IsMax(cs[..i + 1], column, r, Max(here[r], x));
        } else {
          assert IsMax(cs[..i + 1], column, r, x);
        }
      } else if r in here {
        IsMaxOneMore(cs, column, i, r, 0);
      }
    } else {
      IsMaxOneMore(cs, column, i, r, 0);
    }
  }

  lemma NoInitContainers(p: Pod, column: Column, data: Amounts)
    requires IsAppData(p.containers, column, data)
    ensures IsPodData(p.(initContainers := p.initContainers[..0]), column, data)
  {
    var q := p.(initContainers := p.initContainers[..0]);
    forall r
      ensures r in data <==> PodDeclares(q, column, r)
      ensures r in data ==> IsEffective(q, column, r, data[r])
    {
      assert !Declares(q.initContainers, column, r);
    }
  }

  method GetPodData(pod: Pod) returns (requests: Amounts, limits: Amounts)
    ensures IsPodData(pod, Requests, requests) && IsPodData(pod, Limits, limits)
  {
    var req := new Table();
    var lim := new Table();
    var cs, inits := pod.containers, pod.initContainers;
    for i := 0 to |cs|
      invariant IsAppData(cs[..i], Requests, req.m) && IsAppData(cs[..i], Limits, lim.m)
    {
      AppStep(cs, Requests, i, req.m);
      AppStep(cs, Limits, i, lim.m);
      AddMap(cs[i].requests, req);
      AddMap(cs[i].limits, lim);
    }
    assert cs[..|cs|] == cs;
    NoInitContainers(pod, Requests, req.m);
    NoInitContainers(pod, Limits, lim.m);
    for i := 0 to |inits|
      invariant IsPodData(pod.(initContainers := inits[..i]), Requests, req.m)
      invariant IsPodData(pod.(initContainers := inits[..i]), Limits, lim.m)
    {
      InitStep(pod, Requests, i, req.m);
      InitStep(pod, Limits, i, lim.m);
      AddMapForInit(inits[i].requests, req);
      AddMapForInit(inits[i].limits, lim);
    }
    assert inits[..|inits|] == inits;
    requests, limits := req.m, lim.m;
  }

  // ---- The effective amount as a function ---------------------------------

  // The largest declared amount; only asked for where there is one.
  function MaxOf(cs: seq<Container>, column: Column, r: string): int
    requires Declares(cs, column, r)
  {
    var n := |cs| - 1;
    var last := Of(cs[n], column);
    DeclaresOneMore(cs, column, n, r);
    assert cs[..n + 1] == cs;
    if !Declares(cs[..n], column, r) then last[r]
    else if r !in last then MaxOf(cs[..n], column, r)
    else Max(last[r], MaxOf(cs[..n], column, r))
  }

  lemma {:induction false} MaxOfIsMax(cs: seq<Container>, column: Column, r: string)
    requires Declares(cs, column, r)
    ensures IsMax(cs, column, r, MaxOf(cs, column, r))
  {
    var n := |cs| - 1;
    assert cs[..n + 1] == cs;
    DeclaresOneMore(cs, column, n, r);
    if Declares(cs[..n], column, r) {
      MaxOfIsMax(cs[..n], column, r);
      IsMaxOneMore(cs, column, n, r, MaxOf(cs[..n], column, r));
    } else {
      IsMaxOneMore(cs, column, n, r, 0);
    }
  }

  // What a pod counts for; a resource it does not declare counts for nothing.
  function Effective(p: Pod, column: Column, r: string): int {
    var sum := SumOf(p.containers, column, r);
    if !Declares(p.initContainers, column, r) then sum
    else if !Declares(p.containers, column, r) then MaxOf(p.initContainers, column, r)
    else Max(sum, MaxOf(p.initContainers, column, r))
  }

  lemma IsMaxUnique(cs: seq<Container>, column: Column, r: string, m: int, m': int)
    requires IsMax(cs, column, r, m) && IsMax(cs, column, r, m')
    ensures m == m'
  {
  }

  // The relation pins down one amount, the function's.
  lemma EffectiveIff(p: Pod, column: Column, r: string, m: int)
    requires PodDeclares(p, column, r)
    ensures IsEffective(p, column, r, m) <==> m == Effective(p, column, r)
  {
    if Declares(p.initContainers, column, r) {
      var x := MaxOf(p.initContainers, column, r);
      MaxOfIsMax(p.initContainers, column, r);
      forall y | IsMax(p.initContainers, column, r, y)
        ensures y == x
      {
        IsMaxUnique(p.initContainers, column, r, x, y);
      }
    }
  }

  lemma PodDataAmount(p: Pod, column: Column, data: Amounts, r: string)
    requires IsPodData(p, column, data)
    ensures Amount(data, r) == Effective(p, column, r)
  {
    if r in data {
      EffectiveIff(p, column, r, data[r]);
    } else {
      UndeclaredSumsToZero(p.containers, column, r);
    }
  }

  // ---- Nodes --------------------------------------------------------------

  predicate IsLive(p: Pod) {
    p.nodeName != "" && !p.deleting && p.phase != "Succeeded" && p.phase != "Failed"
  }

  function LivePods(pods: seq<Pod>): (live: seq<Pod>)
    ensures forall p | p in live :: p in pods && IsLive(p)
  {
    if pods == [] then []
    else LivePods(pods[..|pods| - 1]) + if IsLive(pods[|pods| - 1]) then [pods[|pods| - 1]] else []
  }

  // Every live pod is kept, as often as it is listed, and no other.
  ghost predicate KeepsLive(all: seq<Pod>, kept: seq<Pod>) {
    forall p: Pod ::
      if p.nodeName == "" || p.deleting || p.phase in ["Succeeded", "Failed"] then p !in kept
      else multiset(kept)[p] == multiset(all)[p]
  }

  lemma {:induction false} LivePodsCount(pods: seq<Pod>, p: Pod)
    ensures multiset(LivePods(pods))[p] == if IsLive(p) then multiset(pods)[p] else 0
  {
    if pods != [] {
      var n := |pods| - 1;
      assert pods == pods[..n] + [pods[n]];
      LivePodsCount(pods[..n], p);
    }
  }

  // podsData is keyed by name alone, so of pods of one name the last one counts.
  function LastOfName(pods: seq<Pod>): map<string, Pod> {
    if pods == [] then map[]
    else LastOfName(pods[..|pods| - 1])[pods[|pods| - 1].name := pods[|pods| - 1]]
  }

  // A sum over a set of pod names, in whatever order.
  ghost function SumOver(names: set<string>, m: map<string, Pod>, column: Column, r: string): int
    requires names <= m.Keys
  {
    if names == {} then 0
    else
      var n :| n in names;
      Effective(m[n], column, r) + SumOver(names - {n}, m, column, r)
  }

  lemma {:induction false} SumOverRemove(names: set<string>, m: map<string, Pod>, column: Column, r: string, n: string)
    requires names <= m.Keys && n in names
    ensures SumOver(names, m, column, r) == Effective(m[n], column, r) + SumOver(names - {n}, m, column, r)
  {
    var k :| k in names
          && SumOver(names, m, column, r) == Effective(m[k], column, r) + SumOver(names - {k}, m, column, r);
    if k != n {
      SumOverRemove(names - {k}, m, column, r, n);
      SumOverRemove(names - {n}, m, column, r, k);
      assert names - {k} - {n} == names - {n} - {k};
    }
  }

  ghost function NodeSum(pods: seq<Pod>, column: Column, r: string): int {
    SumOver(LastOfName(pods).Keys, LastOfName(pods), column, r)
  }

  method GetNodePods(node: Node) returns (pods: Pods)
    ensures pods == if node.pods.Unlisted? then Unlisted else Listed(LivePods(node.pods.items))
    ensures pods.Listed? ==> KeepsLive(node.pods.items, pods.items)
  {
    if node.pods.Unlisted? {
      return Unlisted;
    }
    var items := node.pods.items;
    var matchPods := [];
    for i := 0 to |items|
      invariant matchPods == LivePods(items[..i])
    {
      assert items[..i + 1][..i] == items[..i];
      if items[i].nodeName == "" || items[i].deleting {
        continue;
      }
      if items[i].phase == "Succeeded" || items[i].phase == "Failed" {
        continue;
      }
      matchPods := matchPods + [items[i]];
    }
    assert items[..|items|] == items;
    forall p
      ensures multiset(matchPods)[p] == if IsLive(p) then multiset(items)[p] else 0
    {
      LivePodsCount(items, p);
    }
    pods := Listed(matchPods);
  }

  datatype PodData = PodData(requests: Amounts, limits: Amounts)

  ghost predicate DataOf(p: Pod, d: PodData) {
    IsPodData(p, Requests, d.requests) && IsPodData(p, Limits, d.limits)
  }

  // The node's table holds the given base plus the sum over the names done.
  ghost predicate HoldsSum(t: Amounts, base: Amounts, names: set<string>, m: map<string, Pod>, column: Column)
    requires names <= m.Keys
  {
    forall r :: Amount(t, r) == Amount(base, r) + SumOver(names, m, column, r)
  }

  lemma HoldsOneMore(t: Amounts, base: Amounts, names: set<string>, m: map<string, Pod>, column: Column,
                     n: string, data: Amounts)
    requires names <= m.Keys && n in m && n !in names
    requires HoldsSum(t, base, names, m, column) && IsPodData(m[n], column, data)
    ensures HoldsSum(Added(data, t), base, names + {n}, m, column)
  {
    forall r
      ensures Amount(Added(data, t), r) == Amount(base, r) + SumOver(names + {n}, m, column, r)
    {
      PodDataAmount(m[n], column, data, r);
      SumOverRemove(names + {n}, m, column, r, n);
      assert names + {n} - {n} == names;
    }
  }

  // The first loop of aggregateRequestAndLimitsForNode.
  method CollectPodData(pods: seq<Pod>) returns (podsData: map<string, PodData>)
    ensures podsData.Keys == LastOfName(pods).Keys
    ensures forall n | n in podsData :: DataOf(LastOfName(pods)[n], podsData[n])
  {
    podsData := map[];
    for i := 0 to |pods|
      invariant podsData.Keys == LastOfName(pods[..i]).Keys
      invariant forall n | n in podsData :: DataOf(LastOfName(pods[..i])[n], podsData[n])
    {
      assert pods[..i + 1][..i] == pods[..i];
      var requests, limits := GetPodData(pods[i]);
      podsData := podsData[pods[i].name := PodData(requests, limits)];
    }
    assert pods[..|pods|] == pods;
  }

  // The second loop: one column of every pod's data, in any order.
  method SumPodData(podsData: map<string, PodData>, ghost m: map<string, Pod>, req: Table, lim: Table)
    requires podsData.Keys == m.Keys && req != lim
    requires forall n | n in podsData :: DataOf(m[n], podsData[n])
    modifies req, lim
    ensures HoldsSum(req.m, old(req.m), m.Keys, m, Requests)
    ensures HoldsSum(lim.m, old(lim.m), m.Keys, m, Limits)
  {
    var todo := podsData.Keys;
    ghost var baseReq, baseLim := req.m, lim.m;
    while todo != {}
      invariant todo <= m.Keys
      invariant HoldsSum(req.m, baseReq, m.Keys - todo, m, Requests)
      invariant HoldsSum(lim.m, baseLim, m.Keys - todo, m, Limits)
    {
      var n :| n in todo;
      HoldsOneMore(req.m, baseReq, m.Keys - todo, m, Requests, n, podsData[n].requests);
      HoldsOneMore(lim.m, baseLim, m.Keys - todo, m, Limits, n, podsData[n].limits);
      assert m.Keys - todo + {n} == m.Keys - (todo - {n});
      AddMap(podsData[n].requests, req);
      AddMap(podsData[n].limits, lim);
      todo := todo - {n};
    }
    assert m.Keys - todo == m.Keys;
  }

  method AggregateForNode(pods: seq<Pod>) returns (requests: Amounts, limits: Amounts)
    ensures forall r :: Amount(requests, r) == NodeSum(pods, Requests, r) + if r == PODS then |pods| else 0
    ensures forall r :: Amount(limits, r) == NodeSum(pods, Limits, r)
  {
    var req := new Table();
    var lim := new Table();
    var podsData := CollectPodData(pods);
    req.m := map[PODS := |pods|];
    SumPodData(podsData, LastOfName(pods), req, lim);
    requests, limits := req.m, lim.m;
  }

  // ---- The cluster ----------------------------------------------------------

  datatype Figure = Capacity | Allocatable | Requested | Limited

  // What one node contributes to a total. A node whose pods cannot be listed
  // contributes nothing at all, not even its capacity.
  ghost function NodeFigure(n: Node, f: Figure, r: string): int {
    if n.pods.Unlisted? then 0
    else
      match f
      case Capacity => if n.capacity.Some? then Amount(n.capacity.value, r) else 0
      case Allocatable => if n.allocatable.Some? then Amount(n.allocatable.value, r) else 0
      case Requested => NodeSum(LivePods(n.pods.items), Requests, r) + if r == PODS then |LivePods(n.pods.items)| else 0
      case Limited => NodeSum(LivePods(n.pods.items), Limits, r)
  }

  ghost function Total(nodes: seq<Node>, f: Figure, r: string): int {
    if nodes == [] then 0 else Total(nodes[..|nodes| - 1], f, r) + NodeFigure(nodes[|nodes| - 1], f, r)
  }

  function Part(e: Resources, f: Figure): Option<Amounts> {
    match f
    case Capacity => e.capacity
    case Allocatable => e.allocatable
    case Requested => e.requested
    case Limited => e.limits
  }

  function PartAmount(e: Resources, f: Figure, r: string): int {
    if Part(e, f).Some? then Amount(Part(e, f).value, r) else 0
  }

  function EntryTotal(es: seq<Resources>, f: Figure, r: string): int {
    if es == [] then 0 else EntryTotal(es[..|es| - 1], f, r) + PartAmount(es[|es| - 1], f, r)
  }

  lemma EntryTotalSnoc(es: seq<Resources>, e: Resources, f: Figure, r: string)
    ensures EntryTotal(es + [e], f, r) == EntryTotal(es, f, r) + PartAmount(e, f, r)
  {
    assert (es + [e])[..|es|] == es;
  }

  const NO_RESOURCES := Resources(None, None, None, None)

  // The zero entries that make() puts in front of the appended ones count for nothing.
  lemma {:induction false} PaddingCountsForNothing(es: seq<Resources>, f: Figure, r: string)
    requires forall i | 0 <= i < |es| :: es[i] == NO_RESOURCES
    ensures EntryTotal(es, f, r) == 0
  {
    if es != [] {
      PaddingCountsForNothing(es[..|es| - 1], f, r);
    }
  }

  method CopyMap(data: Amounts) returns (copy: Amounts)
    ensures copy == data
  {
    copy := map[];
    var todo := data.Keys;
    while todo != {}
      invariant todo <= data.Keys && copy.Keys == data.Keys - todo
      invariant forall r | r in copy :: copy[r] == data[r]
    {
      var name :| name in todo;
      copy := copy[name := data[name]];
      todo := todo - {name};
    }
  }

  ghost predicate EntriesMatch(entries: seq<Resources>, nodes: seq<Node>) {
    forall f, r :: EntryTotal(entries, f, r) == Total(nodes, f, r)
  }

  // One more node, and the entry for it where it could be listed.
  lemma EntriesOneMore(entries: seq<Resources>, more: seq<Resources>, nodes: seq<Node>, i: nat)
    requires i < |nodes| && EntriesMatch(entries, nodes[..i])
    requires if nodes[i].pods.Unlisted? then more == []
             else |more| == 1 && forall f, r :: PartAmount(more[0], f, r) == NodeFigure(nodes[i], f, r)
    ensures EntriesMatch(entries + more, nodes[..i + 1])
  {
    assert nodes[..i + 1][..i] == nodes[..i];
    forall f, r
      ensures EntryTotal(entries + more, f, r) == Total(nodes[..i + 1], f, r)
    {
      if more == [] {
        assert entries + more == entries;
      } else {
        assert more == [more[0]];
        EntryTotalSnoc(entries, more[0], f, r);
      }
    }
  }

  // The first loop of ClusterResources: one entry for each node that can be
  // listed, behind as many zero entries as there are nodes.
  method CollectEntries(nodes: seq<Node>) returns (entries: seq<Resources>)
    ensures EntriesMatch(entries, nodes)
  {
    entries := seq(|nodes|, _ => NO_RESOURCES);
    forall f, r
      ensures EntryTotal(entries, f, r) == 0
    {
      PaddingCountsForNothing(entries, f, r);
    }
    for i := 0 to |nodes|
      invariant EntriesMatch(entries, nodes[..i])
    {
      var pods := GetNodePods(nodes[i]);
      if pods.Unlisted? {
        EntriesOneMore(entries, [], nodes, i);
        assert entries + [] == entries;
        continue;
      }
      var requests, limits := AggregateForNode(pods.items);
      var requested := CopyMap(requests);
      var limited := CopyMap(limits);
      var e := Resources(nodes[i].capacity, nodes[i].allocatable, Some(requested), Some(limited));
      EntriesOneMore(entries, [e], nodes, i);
      entries := entries + [e];
    }
    assert nodes[..|nodes|] == nodes;
  }

  function EntryTotals(es: seq<Resources>, f: Figure): Amounts {
    map[PODS := EntryTotal(es, f, PODS), MEMORY := EntryTotal(es, f, MEMORY), CPU := EntryTotal(es, f, CPU)]
  }

  predicate Accumulated(es: seq<Resources>, f: Figure, pods: int, mem: int, cpu: int) {
    pods == EntryTotal(es, f, PODS) && mem == EntryTotal(es, f, MEMORY) && cpu == EntryTotal(es, f, CPU)
  }

  // The second loop, with its twelve accumulators.
  method SumEntries(entries: seq<Resources>) returns (r: Resources)
    ensures r == Resources(Some(EntryTotals(entries, Capacity)), Some(EntryTotals(entries, Allocatable)),
                           Some(EntryTotals(entries, Requested)), Some(EntryTotals(entries, Limited)))
  {
    var pods, mem, cpu := 0, 0, 0;
    var apods, amem, acpu := 0, 0, 0;
    var rpods, rmem, rcpu := 0, 0, 0;
    var lpods, lmem, lcpu := 0, 0, 0;
    for i := 0 to |entries|
      invariant Accumulated(entries[..i], Capacity, pods, mem, cpu)
      invariant Accumulated(entries[..i], Allocatable, apods, amem, acpu)
      invariant Accumulated(entries[..i], Requested, rpods, rmem, rcpu)
      invariant Accumulated(entries[..i], Limited, lpods, lmem, lcpu)
    {
      assert entries[..i + 1][..i] == entries[..i];
      var e := entries[i];
      pods, mem, cpu := Accumulate(e.capacity, pods, mem, cpu);
      apods, amem, acpu := Accumulate(e.allocatable, apods, amem, acpu);
      rpods, rmem, rcpu := Accumulate(e.requested, rpods, rmem, rcpu);
      lpods, lmem, lcpu := Accumulate(e.limits, lpods, lmem, lcpu);
      AccumulatedOneMore(entries, i, Capacity, pods, mem, cpu);
      AccumulatedOneMore(entries, i, Allocatable, apods, amem, acpu);
      AccumulatedOneMore(entries, i, Requested, rpods, rmem, rcpu);
      AccumulatedOneMore(entries, i, Limited, lpods, lmem, lcpu);
    }
    assert entries[..|entries|] == entries;
    r := Resources(Some(map[PODS := pods, MEMORY := mem, CPU := cpu]),
                   Some(map[PODS := apods, MEMORY := amem, CPU := acpu]),
                   Some(map[PODS := rpods, MEMORY := rmem, CPU := rcpu]),
                   Some(map[PODS := lpods, MEMORY := lmem, CPU := lcpu]));
  }

  // One "if list != nil" of that loop.
  method Accumulate(list: Option<Amounts>, pods: int, mem: int, cpu: int) returns (pods': int, mem': int, cpu': int)
    ensures pods' == pods + (if list.Some? then Amount(list.value, PODS) else 0)
    ensures mem' == mem + (if list.Some? then Amount(list.value, MEMORY) else 0)
    ensures cpu' == cpu + (if list.Some? then Amount(list.value, CPU) else 0)
  {
    pods', mem', cpu' := pods, mem, cpu;
    if list.Some? {
      pods' := pods' + Amount(list.value, PODS);
      mem' := mem' + Amount(list.value, MEMORY);
      cpu' := cpu' + Amount(list.value, CPU);
    }
  }

  lemma AccumulatedOneMore(es: seq<Resources>, i: nat, f: Figure, pods: int, mem: int, cpu: int)
    requires i < |es|
    requires pods == EntryTotal(es[..i], f, PODS) + PartAmount(es[i], f, PODS)
    requires mem == EntryTotal(es[..i], f, MEMORY) + PartAmount(es[i], f, MEMORY)
    requires cpu == EntryTotal(es[..i], f, CPU) + PartAmount(es[i], f, CPU)
    ensures Accumulated(es[..i + 1], f, pods, mem, cpu)
  {
    assert es[..i + 1] == es[..i] + [es[i]];
    EntryTotalSnoc(es[..i], es[i], f, PODS);
    EntryTotalSnoc(es[..i], es[i], f, MEMORY);
    EntryTotalSnoc(es[..i], es[i], f, CPU);
  }

  // What the nodes have of a resource, and what of it they can give to pods: the sum over
  // those whose pods could be listed, where nothing said counts for nothing.
  function CapacitySum(nodes: seq<Node>, r: string): int {
    if nodes == [] then 0
    else
      var n := nodes[0];
      var rest := CapacitySum(nodes[1..], r);
      if n.pods.Listed? && n.capacity.Some? && r in n.capacity.value then n.capacity.value[r] + rest else rest
  }

  function AllocatableSum(nodes: seq<Node>, r: string): int {
    if nodes == [] then 0
    else
      var n := nodes[0];
      var rest := AllocatableSum(nodes[1..], r);
      if n.pods.Listed? && n.allocatable.Some? && r in n.allocatable.value then n.allocatable.value[r] + rest else rest
  }

  lemma {:induction false} TotalCons(n: Node, nodes: seq<Node>, f: Figure, r: string)
    ensures Total([n] + nodes, f, r) == NodeFigure(n, f, r) + Total(nodes, f, r)
  {
    var all := [n] + nodes;
    if nodes == [] {
      assert all == [n] && all[..0] == [];
    } else {
      var k := |nodes| - 1;
      TotalCons(n, nodes[..k], f, r);
      assert all[..|all| - 1] == [n] + nodes[..k];
    }
  }

  lemma {:induction false} StockTotals(nodes: seq<Node>, r: string)
    ensures Total(nodes, Capacity, r) == CapacitySum(nodes, r)
    ensures Total(nodes, Allocatable, r) == AllocatableSum(nodes, r)
  {
    if nodes != [] {
      StockTotals(nodes[1..], r);
      assert nodes == [nodes[0]] + nodes[1..];
      TotalCons(nodes[0], nodes[1..], Capacity, r);
      TotalCons(nodes[0], nodes[1..], Allocatable, r);
    }
  }

  ghost function Totals(nodes: seq<Node>, f: Figure): Amounts {
    map[PODS := Total(nodes, f, PODS), MEMORY := Total(nodes, f, MEMORY), CPU := Total(nodes, f, CPU)]
  }

  // nodes is None when the nodes cannot be listed.
  method ClusterResources(nodes: Option<seq<Node>>) returns (r: Option<Resources>)
    ensures r.None? <==> nodes.None?
    ensures nodes.Some? ==> r.value == Resources(
                                Some(Totals(nodes.value, Capacity)), Some(Totals(nodes.value, Allocatable)),
                                Some(Totals(nodes.value, Requested)), Some(Totals(nodes.value, Limited)))
    ensures nodes.Some? ==> forall k | k in [PODS, MEMORY, CPU] ::
              && r.value.capacity.Some? && k in r.value.capacity.value
              && r.value.capacity.value[k] == CapacitySum(nodes.value, k)
              && r.value.allocatable.Some? && k in r.value.allocatable.value
              && r.value.allocatable.value[k] == AllocatableSum(nodes.value, k)
  {
    if nodes.None? {
      return None;
    }
    var entries := CollectEntries(nodes.value);
    var resources := SumEntries(entries);
    r := Some(resources);
    StockTotals(nodes.value, PODS);
    StockTotals(nodes.value, MEMORY);
    StockTotals(nodes.value, CPU);
  }
}
