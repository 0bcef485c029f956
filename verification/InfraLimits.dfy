/**
 Where the infrastructure controller stops short: update paths that never
 update, an unconditional update that can take an object over, and an update
 path that can run ahead of the bundle. Each comes with its exact condition.
 */
module InfraLimits {
  import opened Options
  import opened KubeApi
  import opened InfraSync
  import opened InfraWorld
  import opened InfraConvergence

  // ---- Only the Dashboard's Deployment is ever changed ----------------------

  lemma StepLeavesDeployments(s: Store, c: Caches, w: Worker, fault: Fault, k: Key)
    requires CachesOk(c) && HoldsInfra(w) && k in s.objs && k.kind == Deployment
    ensures var t := Advance(s, c, w, fault).store;
            k in t.objs && (t.objs[k] == s.objs[k] || (w.UpdateMain? && k == MainKey(Dashboard)))
  {
    if w.UpdateMain? {
      ItemFits(w.infra, UPDATE_FROM);
    }
  }

  lemma KindIsKept(s: Store, c: Caches, w: Worker, fault: Fault)
    requires CachesOk(c) && HoldsInfra(w) && !w.Begin? && !w.Finished?
    ensures var next := Advance(s, c, w, fault).worker; !next.Begin? && (!next.Finished? ==> next.infra == w.infra)
  {
  }

  lemma {:induction false} RunLeavesDeployments(s: Store, c: Caches, w: Worker, faults: Faults, k: Key)
    requires CachesOk(c) && HoldsInfra(w) && !w.Begin? && k in s.objs && k.kind == Deployment
    requires !w.Finished? ==> w.infra.body.infraKind != Dashboard
    ensures var e := Finish(s, c, w, faults); k in e.store.objs && e.store.objs[k] == s.objs[k]
    decreases StepsLeft(w)
  {
    AdvanceTerminates(s, c, w, NoFault);
    if !w.Finished? {
      var p := Advance(s, c, w, FaultAt(faults, w));
      AdvanceTerminates(s, c, w, FaultAt(faults, w));
      AdvanceTerminates(p.store, c, p.worker, NoFault);
      StepLeavesDeployments(s, c, w, FaultAt(faults, w), k);
      KindIsKept(s, c, w, FaultAt(faults, w));
      RunLeavesDeployments(p.store, c, p.worker, faults, k);
    }
  }

  // No sync of a Longhorn or RancherVM, with whatever caches and failures,
  // changes a Deployment that exists: its update path only issues Creates.
  lemma SyncLeavesDeployments(s: Store, c: Caches, ns: string, name: string, faults: Faults, k: Key)
    requires CachesOk(c) && k in s.objs && k.kind == Deployment
    requires var i := Key(Infrastructure, ns, name);
             i in c.infras.objs ==> IsInfra(c.infras.objs[i]) && c.infras.objs[i].body.infraKind != Dashboard
    ensures var e := Sync(s, c, ns, name, faults); k in e.store.objs && e.store.objs[k] == s.objs[k]
  {
    var w := Begin(ns, name);
    InfraIsKept(s, c, w, NoFault);
    FinishStep(s, c, w, faults);
    RunLeavesDeployments(s, c, Advance(s, c, w, NoFault).worker, faults, k);
  }

  // ---- The Dashboard update carries no resource version ----------------------

  ghost predicate OwnersKept(s: Store, t: Store) {
    forall k | k in s.objs :: k in t.objs && t.objs[k].owner == s.objs[k].owner
  }

  // The caches show a Dashboard and its own Deployment, in another number of
  // replicas than wanted; the update reaches the server; and the Deployment there
  // is not the Dashboard's.
  predicate TakesOver(s: Store, c: Caches, ns: string, name: string, faults: Faults) {
    var i, d, m := Key(Infrastructure, ns, name), Key(Deployment, ns, name), MainKey(Dashboard);
    && name != "" && i in c.infras.objs && d in c.deployments.objs
    && IsInfra(c.infras.objs[i]) && c.infras.objs[i].body.infraKind == Dashboard
    && ControlledBy(c.deployments.objs[d], c.infras.objs[i])
    && WantsReplicas(c.infras.objs[i], c.deployments.objs[d])
    && faults(UpdateNamespaceCall) == NoFault && faults(MainCall) != Refused
    && m in s.objs && !ControlledBy(s.objs[m], c.infras.objs[i])
  }

  // Nothing ahead of the worker would change a controller.
  ghost predicate OwnersSafe(s: Store, w: Worker)
    requires HoldsInfra(w)
  {
    && (w.UpdateNamespace? || w.UpdateMain? ==> w.infra.body.infraKind == Dashboard ==>
          MainKey(Dashboard) in s.objs ==> ControlledBy(s.objs[MainKey(Dashboard)], w.infra))
    && (!w.Begin? && !w.Finished? ==> 0 < w.infra.rv)
    && (!w.Begin? && !w.Finished? ==> var k := KeyOf(Infrastructure, w.infra);
          k in s.objs && s.objs[k].rv == w.infra.rv ==> s.objs[k].owner == w.infra.owner)
  }

  lemma SafeStep(s: Store, c: Caches, w: Worker, fault: Fault)
    requires WellFormed(s) && CachesOk(c) && HoldsInfra(w) && !w.Begin? && !w.Finished? && OwnersSafe(s, w)
    ensures var p := Advance(s, c, w, fault);
            WellFormed(p.store) && OwnersKept(s, p.store) && HoldsInfra(p.worker) && OwnersSafe(p.store, p.worker)
  {
    var p := Advance(s, c, w, fault);
    StepEvolves(s, c, w, fault);
    AdvanceTerminates(s, c, w, fault);
    forall k | k in s.objs
      ensures k in p.store.objs && p.store.objs[k].owner == s.objs[k].owner
    {
      OwnerStays(s, p.store, k);
    }
    if !p.worker.Finished? {
      SafeNext(s, c, w, fault);
    }
  }

  lemma SafeNext(s: Store, c: Caches, w: Worker, fault: Fault)
    requires WellFormed(s) && CachesOk(c) && HoldsInfra(w) && !w.Begin? && !w.Finished? && OwnersSafe(s, w)
    requires var p := Advance(s, c, w, fault); !p.worker.Finished? && HoldsInfra(p.worker)
    ensures var p := Advance(s, c, w, fault); OwnersSafe(p.store, p.worker)
  {
    var p := Advance(s, c, w, fault);
    KindIsKept(s, c, w, fault);
    UpdatePathEntry(s, c, w, fault);
    NoNewInfra(s, c, w, fault, KeyOf(Infrastructure, w.infra));
    if KeyOf(Infrastructure, w.infra) in s.objs {
      OtherKindsStay(s, c, w, fault, KeyOf(Infrastructure, w.infra));
    }
    if w.UpdateNamespace? {
      MainStays(s, c, w, fault);
    }
  }

  lemma OtherKindsStay(s: Store, c: Caches, w: Worker, fault: Fault, k: Key)
    requires CachesOk(c) && HoldsInfra(w) && k.kind == Infrastructure && k in s.objs
    requires !Advance(s, c, w, fault).worker.Finished?
    ensures k in Advance(s, c, w, fault).store.objs && Advance(s, c, w, fault).store.objs[k] == s.objs[k]
  {
    if w.CreateItem? || w.UpdateItem? {
      BundleShape(w.infra.body.infraKind);
      assert ItemShaped(w.infra.body.infraKind, w.item);
    }
  }

  lemma MainStays(s: Store, c: Caches, w: Worker, fault: Fault)
    requires CachesOk(c) && HoldsInfra(w) && w.UpdateNamespace?
    ensures var t, m := Advance(s, c, w, fault).store, MainKey(Dashboard);
            (m in t.objs <==> m in s.objs) && (m in s.objs ==> t.objs[m] == s.objs[m])
  {
    BundleShape(Dashboard);
  }

  lemma {:induction false} SafeRun(s: Store, c: Caches, w: Worker, faults: Faults)
    requires WellFormed(s) && CachesOk(c) && HoldsInfra(w) && !w.Begin? && OwnersSafe(s, w)
    ensures OwnersKept(s, Finish(s, c, w, faults).store)
    decreases StepsLeft(w)
  {
    AdvanceTerminates(s, c, w, NoFault);
    if !w.Finished? {
      var p := Advance(s, c, w, FaultAt(faults, w));
      AdvanceTerminates(s, c, w, FaultAt(faults, w));
      AdvanceTerminates(p.store, c, p.worker, NoFault);
      SafeStep(s, c, w, FaultAt(faults, w));
      InfraIsKept(s, c, w, FaultAt(faults, w));
      SafeRun(p.store, c, p.worker, faults);
    }
  }

  // An update path that meets a foreign Deployment, but stops short of the server.
  lemma StoppedUpdateKeeps(s: Store, c: Caches, infra: Object, faults: Faults)
    requires WellFormed(s) && CachesOk(c) && IsInfra(infra) && infra.body.infraKind == Dashboard
    requires faults(UpdateNamespaceCall) != NoFault || faults(MainCall) == Refused
    ensures OwnersKept(s, Finish(s, c, UpdateNamespace(infra), faults).store)
  {
    FinishStep(s, c, UpdateNamespace(infra), faults);
    var t := Creating(s, Namespace, NamespaceOf(Dashboard)).store;
    NamespaceStage(s, Dashboard);
    if faults(UpdateNamespaceCall) == NoFault {
      RefusedUpdateKeeps(t, c, infra, faults);
    }
  }

  lemma RefusedUpdateKeeps(s: Store, c: Caches, infra: Object, faults: Faults)
    requires CachesOk(c) && IsInfra(infra) && infra.body.infraKind == Dashboard && faults(MainCall) == Refused
    ensures Finish(s, c, UpdateMain(infra), faults).store == s
  {
    BundleShape(Dashboard);
    FinishStep(s, c, UpdateMain(infra), faults);
  }

  // Once on its update path, and let through to the server, a Dashboard ends up
  // controlling whatever Deployment there is of the name.
  lemma UpdatePathTakesOver(s: Store, c: Caches, infra: Object, faults: Faults)
    requires WellFormed(s) && CachesOk(c) && IsInfra(infra) && infra.body.infraKind == Dashboard
    requires MainKey(Dashboard) in s.objs
    requires faults(UpdateNamespaceCall) == NoFault && faults(MainCall) != Refused
    ensures var m, t := MainKey(Dashboard), Finish(s, c, UpdateNamespace(infra), faults).store;
            m in t.objs && t.objs[m].uid == s.objs[m].uid && t.objs[m].owner == Some(infra.uid)
  {
    FinishStep(s, c, UpdateNamespace(infra), faults);
    NamespaceStage(s, Dashboard);
    MainUpdateTakesOver(Creating(s, Namespace, NamespaceOf(Dashboard)).store, c, infra, faults);
  }

  lemma MainUpdateTakesOver(s: Store, c: Caches, infra: Object, faults: Faults)
    requires WellFormed(s) && CachesOk(c) && IsInfra(infra) && infra.body.infraKind == Dashboard
    requires MainKey(Dashboard) in s.objs && faults(MainCall) != Refused
    ensures var m, t := MainKey(Dashboard), Finish(s, c, UpdateMain(infra), faults).store;
            m in t.objs && t.objs[m].uid == s.objs[m].uid && t.objs[m].owner == Some(infra.uid)
  {
    BundleShape(Dashboard);
    ItemFits(infra, UPDATE_FROM);
    FinishStep(s, c, UpdateMain(infra), faults);
    var a := Update(s, Deployment, Item(infra, UPDATE_FROM), NoFault);
    assert a.reply.err == None;
    if faults(MainCall) == NoFault {
      FinishStep(a.store, c, UpdateStatus(infra, Available(a.reply.obj)), faults);
    }
  }

  lemma StartOnUpdatePath(s: Store, c: Caches, ns: string, name: string, faults: Faults)
    requires CachesOk(c)
    ensures var i, d, w := Key(Infrastructure, ns, name), Key(Deployment, ns, name), Start(c, ns, name);
            && Sync(s, c, ns, name, faults) == Finish(s, c, w, faults)
            && HoldsInfra(w) && !w.Begin? && !w.UpdateMain?
            && (!w.Finished? ==>
                  i in c.infras.objs && w.infra == c.infras.objs[i] && KeyOf(Infrastructure, w.infra) == i)
            && (w.UpdateNamespace? <==>
                  && name != "" && i in c.infras.objs && d in c.deployments.objs
                  && IsInfra(c.infras.objs[i]) && Known(c.infras.objs[i].body.infraKind)
                  && ControlledBy(c.deployments.objs[d], c.infras.objs[i])
                  && WantsReplicas(c.infras.objs[i], c.deployments.objs[d]))
  {
    var i := Key(Infrastructure, ns, name);
    FinishStep(s, c, Begin(ns, name), faults);
    assert i in c.infras.objs ==> Filed(c.infras, i, c.infras.objs[i]);
  }

  // The last store of a history, and caches that show any earlier ones: a sync
  // leaves every controller as it is exactly when it is not of that kind.
  lemma SyncKeepsOwnersIff(h: seq<Store>, views: Views, ns: string, name: string, faults: Faults)
    requires Coherent(h) && ValidViews(views, |h|)
    ensures OwnersKept(Last(h), Sync(Last(h), CachesAt(h, views), ns, name, faults).store)
       <==> !TakesOver(Last(h), CachesAt(h, views), ns, name, faults)
  {
    var s, c := Last(h), CachesAt(h, views);
    var w, m := Start(c, ns, name), MainKey(Dashboard);
    StartOnUpdatePath(s, c, ns, name, faults);
    if w.UpdateNamespace? && w.infra.body.infraKind == Dashboard && m in s.objs && !ControlledBy(s.objs[m], w.infra) {
      if TakesOver(s, c, ns, name, faults) {
        UpdatePathTakesOver(s, c, w.infra, faults);
      } else {
        StoppedUpdateKeeps(s, c, w.infra, faults);
      }
    } else {
      if !w.Finished? {
        StoredIsSeen(h, views.infras, Key(Infrastructure, ns, name));
        SeenFits(h, w.infra);
        StatusIsSwapped(h, w.infra, KeyOf(Infrastructure, w.infra));
      }
      SafeRun(s, c, w, faults);
    }
  }

  // A Dashboard with its Deployment; the Deployment deleted; and another put in its
  // place by an operator, whose it is. The cache still shows the first.
  const DASHBOARD_INFRA := Object("kube-system", "kubernetes-dashboard", 1, 1, None,
                                  InfraBody(Dashboard, Some(2), InfraStatus(Unset, 0, Silent)))
  const OPERATOR := Object("kube-system", "operator", 2, 2, None, Plain)
  const OWN_DEPLOYMENT := Object("kube-system", "kubernetes-dashboard", 3, 3, Some(1), DeploymentBody(1, 1))
  const FOREIGN_DEPLOYMENT := Object("kube-system", "kubernetes-dashboard", 4, 4, Some(2), DeploymentBody(1, 1))

  // Who takes part: an Infrastructure, an operator, and a place for a Deployment.
  datatype Cast = Cast(infraKey: Key, infra: Object, operatorKey: Key, operator: Object, place: Key)

  const DASHBOARD_CAST := Cast(Key(Infrastructure, "kube-system", "kubernetes-dashboard"), DASHBOARD_INFRA,
                               Key(DaemonSet, "kube-system", "operator"), OPERATOR,
                               Key(Deployment, "kube-system", "kubernetes-dashboard"))

  function WithoutDeployment(c: Cast, next: nat): Store {
    Store(map[c.infraKey := c.infra, c.operatorKey := c.operator], next, next)
  }

  function WithDeployment(c: Cast, d: Object): Store {
    Store(map[c.infraKey := c.infra, c.operatorKey := c.operator, c.place := d], d.uid + 1, d.rv + 1)
  }

  // o is the n-th object written, and belongs under k.
  predicate Places(k: Key, o: Object, n: nat) {
    k == KeyOf(k.kind, o) && o.uid == n && o.rv == n && Fits(k.kind, o.body) && (ClusterScoped(k.kind) ==> k.ns == "")
  }

  predicate Placed(c: Cast) {
    && c.infraKey.kind != c.operatorKey.kind && c.infraKey.kind != c.place.kind && c.operatorKey.kind != c.place.kind
    && Places(c.infraKey, c.infra, 1) && Places(c.operatorKey, c.operator, 2)
  }

  // Three objects created one after the other, the third deleted, a fourth put
  // under its key.
  lemma ReplacedIsAHistory(c: Cast, d: Object, d': Object)
    requires Placed(c) && Places(c.place, d, 3) && Places(c.place, d', 4)
    ensures Evolves(WithDeployment(c, d), WithoutDeployment(c, 4))
    ensures Evolves(WithoutDeployment(c, 4), WithDeployment(c, d'))
    ensures Coherent([WithDeployment(c, d), WithoutDeployment(c, 4), WithDeployment(c, d')])
  {
    CastIsWellFormed(c, d, 3);
    CastIsWellFormed(c, d', 4);
    DeploymentChanges(c, d, 3);
    DeploymentChanges(c, d', 4);
    OneIsCoherent(WithDeployment(c, d));
    StoresCohere(WithDeployment(c, d), WithoutDeployment(c, 4), WithDeployment(c, d'));
  }

  // The Deployment deleted, or created.
  lemma DeploymentChanges(c: Cast, d: Object, n: nat)
    requires Placed(c) && Places(c.place, d, n) && 3 <= n <= 4
    ensures n == 3 ==> Evolves(WithDeployment(c, d), WithoutDeployment(c, 4))
    ensures n == 4 ==> Evolves(WithoutDeployment(c, 4), WithDeployment(c, d))
  {
  }

  ghost predicate NumbersDiffer(s: Store) {
    forall k, m | k in s.objs && m in s.objs && (s.objs[k].uid == s.objs[m].uid || s.objs[k].rv == s.objs[m].rv) ::
      k == m
  }

  lemma CastIsWellFormed(c: Cast, d: Object, n: nat)
    requires Placed(c) && Places(c.place, d, n) && 3 <= n <= 4
    ensures WellFormed(WithDeployment(c, d)) && WellFormed(WithoutDeployment(c, 4))
    ensures NumbersDiffer(WithDeployment(c, d))
  {
  }

  lemma StoresCohere(a: Store, b: Store, c: Store)
    requires Coherent([a]) && WellFormed(b) && WellFormed(c) && Evolves(a, b) && Evolves(b, c)
    ensures Coherent([a, b, c])
  {
    CoherentExtends([a], b);
    assert [a] + [b] == [a, b];
    CoherentExtends([a, b], c);
    assert [a, b] + [c] == [a, b, c];
  }

  lemma OneIsCoherent(s: Store)
    requires WellFormed(s) && NumbersDiffer(s)
    ensures Coherent([s])
  {
  }

  function Replaced(c: Cast, d: Object, d': Object): seq<Store> {
    [WithDeployment(c, d), WithoutDeployment(c, 4), WithDeployment(c, d')]
  }

  // With the first state cached a Dashboard takes over whatever has replaced its own.
  lemma ReplacedIsTakenOver(c: Cast, d: Object, d': Object, ns: string, name: string)
    requires Placed(c) && Places(c.place, d, 3) && Places(c.place, d', 4)
    requires c.place == MainKey(Dashboard) == Key(Deployment, ns, name) && c.infraKey == Key(Infrastructure, ns, name)
    requires name != "" && IsInfra(c.infra) && c.infra.body.infraKind == Dashboard
    requires ControlledBy(d, c.infra) && WantsReplicas(c.infra, d) && !ControlledBy(d', c.infra)
    ensures var h := Replaced(c, d, d');
            && Coherent(h) && Evolves(h[0], h[1]) && Evolves(h[1], h[2])
            && var t := Sync(Last(h), CachesAt(h, Views(0, 0, 0)), ns, name, NO_FAULTS).store;
               c.place in t.objs && t.objs[c.place].uid == d'.uid && t.objs[c.place].owner == Some(c.infra.uid)
  {
    ReplacedIsAHistory(c, d, d');
    CastTakesOver(c, d, d', ns, name);
    CastIsWellFormed(c, d', 4);
    CachedDashboardTakesOver(WithDeployment(c, d'), CachesAt(Replaced(c, d, d'), Views(0, 0, 0)), ns, name);
  }

  // For one, a Dashboard's by an operator's.
  lemma StaleDashboardSyncTakesOver()
    ensures var c, h := DASHBOARD_CAST, Replaced(DASHBOARD_CAST, OWN_DEPLOYMENT, FOREIGN_DEPLOYMENT);
            && Coherent(h) && Evolves(h[0], h[1]) && Evolves(h[1], h[2])
            && FOREIGN_DEPLOYMENT.owner == Some(OPERATOR.uid)
            && var views := CachesAt(h, Views(0, 0, 0));
            && var t := Sync(Last(h), views, "kube-system", "kubernetes-dashboard", NO_FAULTS).store;
               && c.place in t.objs && t.objs[c.place].uid == FOREIGN_DEPLOYMENT.uid
               && t.objs[c.place].owner == Some(DASHBOARD_INFRA.uid)
  {
    assert MainKey(Dashboard) == DASHBOARD_CAST.place;
    ReplacedIsTakenOver(DASHBOARD_CAST, OWN_DEPLOYMENT, FOREIGN_DEPLOYMENT, "kube-system", "kubernetes-dashboard");
  }

  lemma CastTakesOver(c: Cast, d: Object, d': Object, ns: string, name: string)
    requires Placed(c) && Places(c.place, d, 3) && Places(c.place, d', 4)
    requires c.place == MainKey(Dashboard) == Key(Deployment, ns, name) && c.infraKey == Key(Infrastructure, ns, name)
    requires name != "" && IsInfra(c.infra) && c.infra.body.infraKind == Dashboard
    requires ControlledBy(d, c.infra) && WantsReplicas(c.infra, d) && !ControlledBy(d', c.infra)
    ensures var s := WithDeployment(c, d);
            WellFormed(s) && TakesOver(WithDeployment(c, d'), Caches(s, s, s), ns, name, NO_FAULTS)
  {
    CastIsWellFormed(c, d, 3);
  }

  lemma CachedDashboardTakesOver(s: Store, c: Caches, ns: string, name: string)
    requires WellFormed(s) && CachesOk(c) && TakesOver(s, c, ns, name, NO_FAULTS)
    ensures var m, t := MainKey(Dashboard), Sync(s, c, ns, name, NO_FAULTS).store;
            && m in t.objs && t.objs[m].uid == s.objs[m].uid
            && t.objs[m].owner == Some(c.infras.objs[Key(Infrastructure, ns, name)].uid)
  {
    StartOnUpdatePath(s, c, ns, name, NO_FAULTS);
    UpdatePathTakesOver(s, c, c.infras.objs[Key(Infrastructure, ns, name)], NO_FAULTS);
  }

  // ---- An Infrastructure of another kind or under another name ----------------

  ghost predicate AnyInfra(s: Store, ns: string, name: string) {
    && WellFormed(s) && name != ""
    && Key(Infrastructure, ns, name) in s.objs
  }

  // Of an unknown kind: the sync gets as far as the status exactly when there is
  // nothing to do, and then complains; otherwise it changes nothing.
  lemma UnknownKindSyncsIff(s: Store, ns: string, name: string)
    requires AnyInfra(s, ns, name) && IsInfra(InfraAt(s, ns, name)) && !Known(InfraAt(s, ns, name).body.infraKind)
    ensures var infra, d := InfraAt(s, ns, name), Key(Deployment, ns, name);
            var e := Sync(s, FreshCaches(s), ns, name, NO_FAULTS);
            && (e.outcome == Synced <==>
                  d in s.objs && ControlledBy(s.objs[d], infra) && !WantsReplicas(infra, s.objs[d]))
            && (e.outcome == Synced ==>
                  Reported(s, e.store, infra, InfraStatus(UnHealthy, Available(s.objs[d]), InvalidKind)))
            && (e.outcome != Synced ==> e.store == s)
            && (e.outcome == Failed(NotControlled) <==> d in s.objs && !ControlledBy(s.objs[d], infra))
            && (e.outcome == Failed(InvalidInfraKind) <==> e.outcome != Synced && e.outcome != Failed(NotControlled))
  {
    var infra, d, c := InfraAt(s, ns, name), Key(Deployment, ns, name), FreshCaches(s);
    assert Filed(s, Key(Infrastructure, ns, name), infra);
    FinishStep(s, c, Begin(ns, name), NO_FAULTS);
    if d in s.objs && ControlledBy(s.objs[d], infra) && !WantsReplicas(infra, s.objs[d]) {
      var t := StatusStage(s, c, infra, Available(s.objs[d]));
    }
  }

  lemma {:induction false} FillBlocked(s: Store, c: Caches, infra: Object, i: nat)
    requires WellFormed(s) && CachesOk(c) && IsInfra(infra) && Known(infra.body.infraKind)
    requires i < |Bundle(infra.body.infraKind)| && MainKey(infra.body.infraKind) in s.objs
    ensures Finish(s, c, CreateItem(infra, i), NO_FAULTS).outcome == Failed(NotControlled)
    decreases |Bundle(infra.body.infraKind)| - i
  {
    FillStep(s, c, infra, i);
    ItemCreated(s, infra, i);
    ItemFits(infra, i);
    if i + 1 < |Bundle(infra.body.infraKind)| {
      FillBlocked(Creating(s, Bundle(infra.body.infraKind)[i].kind, Item(infra, i)).store, c, infra, i + 1);
    }
  }

  // Whatever its name: where no Deployment bears that name, the sync succeeds
  // exactly when the main Deployment of the bundle is not there yet.
  lemma CreationSucceedsIff(s: Store, ns: string, name: string)
    requires AnyInfra(s, ns, name) && IsInfra(InfraAt(s, ns, name)) && Known(InfraAt(s, ns, name).body.infraKind)
    requires Key(Deployment, ns, name) !in s.objs
    ensures var kind, e := InfraAt(s, ns, name).body.infraKind, Sync(s, FreshCaches(s), ns, name, NO_FAULTS);
            && (e.outcome == Synced <==> MainKey(kind) !in s.objs)
            && (e.outcome != Synced ==> e.outcome == Failed(NotControlled))
            && (e.outcome == Synced ==>
                  && WellFormed(e.store) && MainKey(kind) in e.store.objs
                  && Complete(e.store, kind) && NamespaceKey(kind) in e.store.objs
                  && Key(Infrastructure, ns, name) in e.store.objs
                  && IsInfra(InfraAt(e.store, ns, name)) && InfraAt(e.store, ns, name).body.infraKind == kind
                  && forall k | k in e.store.objs :: k in s.objs || k == NamespaceKey(kind) || k in Bundle(kind))
  {
    var infra, c := InfraAt(s, ns, name), FreshCaches(s);
    var kind := infra.body.infraKind;
    assert Filed(s, Key(Infrastructure, ns, name), infra);
    BundleShape(kind);
    FinishStep(s, c, Begin(ns, name), NO_FAULTS);
    if MainKey(kind) in s.objs {
      FinishStep(s, c, CreateNamespace(infra), NO_FAULTS);
      NamespaceStage(s, kind);
      FillBlocked(Creating(s, Namespace, NamespaceOf(kind)).store, c, infra, 0);
    } else {
      var t := CreationStage(s, c, infra);
      var t' := StatusStage(t, c, infra, 0);
    }
  }

  // What creation from the i-th object on puts up is the Infrastructure's own.
  lemma {:induction false} FilledOwns(s: Store, infra: Object, i: nat, j: nat)
    requires WellFormed(s) && IsInfra(infra) && Known(infra.body.infraKind)
    requires i <= j < |Bundle(infra.body.infraKind)| && Bundle(infra.body.infraKind)[j] !in s.objs
    ensures var t, k := Filled(s, infra, i), Bundle(infra.body.infraKind)[j];
            k in t.objs && t.objs[k].owner == Some(infra.uid) && t.objs[k].body == Item(infra, j).body
    decreases j - i
  {
    var kind := infra.body.infraKind;
    var s1 := Creating(s, Bundle(kind)[i].kind, Item(infra, i)).store;
    ItemCreated(s, infra, i);
    if i == j {
      FilledGrows(s1, infra, i + 1);
    } else {
      BundlesDisjoint(kind, i, kind, j);
      FilledOwns(s1, infra, i + 1, j);
    }
  }

  lemma {:induction false} FilledGrows(s: Store, infra: Object, i: nat)
    requires WellFormed(s) && IsInfra(infra) && Known(infra.body.infraKind) && i <= |Bundle(infra.body.infraKind)|
    ensures Grown(s, Filled(s, infra, i))
    decreases |Bundle(infra.body.infraKind)| - i
  {
    if i < |Bundle(infra.body.infraKind)| {
      ItemCreated(s, infra, i);
      FilledGrows(Creating(s, Bundle(infra.body.infraKind)[i].kind, Item(infra, i)).store, infra, i + 1);
    }
  }

  // The first sync of an Infrastructure whose main Deployment is nowhere yet.
  lemma FirstSync(s: Store, ns: string, name: string) returns (t: Store, t': Store)
    requires AnyInfra(s, ns, name) && IsInfra(InfraAt(s, ns, name)) && Known(InfraAt(s, ns, name).body.infraKind)
    requires Key(Deployment, ns, name) !in s.objs && MainKey(InfraAt(s, ns, name).body.infraKind) !in s.objs
    ensures var infra := InfraAt(s, ns, name);
            && t == Filled(Creating(s, Namespace, NamespaceOf(infra.body.infraKind)).store, infra, 0)
            && Sync(s, FreshCaches(s), ns, name, NO_FAULTS).store == t'
            && Reported(t, t', infra, StatusOf(infra, 0, s))
  {
    var infra, c := InfraAt(s, ns, name), FreshCaches(s);
    assert Filed(s, Key(Infrastructure, ns, name), infra);
    FinishStep(s, c, Begin(ns, name), NO_FAULTS);
    t := CreationStage(s, c, infra);
    t' := StatusStage(t, c, infra, 0);
  }

  // Where the Deployment of its name is an item of the bundle, the first sync has
  // made it the Infrastructure's own, in the wanted number of replicas.
  lemma FirstSyncOwnsItsName(s: Store, ns: string, name: string, j: nat)
    requires AnyInfra(s, ns, name) && IsInfra(InfraAt(s, ns, name)) && Known(InfraAt(s, ns, name).body.infraKind)
    requires Key(Deployment, ns, name) !in s.objs && MainKey(InfraAt(s, ns, name).body.infraKind) !in s.objs
    requires j < |Bundle(InfraAt(s, ns, name).body.infraKind)|
    requires Bundle(InfraAt(s, ns, name).body.infraKind)[j] == Key(Deployment, ns, name)
    ensures var d, k := Key(Deployment, ns, name), Key(Infrastructure, ns, name);
            var t := Sync(s, FreshCaches(s), ns, name, NO_FAULTS).store;
            && WellFormed(t) && d in t.objs && k in t.objs && IsInfra(t.objs[k])
            && ControlledBy(t.objs[d], t.objs[k]) && !WantsReplicas(t.objs[k], t.objs[d])
  {
    var infra := InfraAt(s, ns, name);
    assert Filed(s, Key(Infrastructure, ns, name), infra);
    var t, t' := FirstSync(s, ns, name);
    NamespaceStage(s, infra.body.infraKind);
    FilledOwns(Creating(s, Namespace, NamespaceOf(infra.body.infraKind)).store, infra, 0, j);
  }

  // Whatever its name: once the first sync has succeeded, the next one succeeds
  // exactly when some object of the bundle is the Deployment of that name. Under any
  // other name it fails and leaves the store as it is, and so does every later one:
  // it keeps looking for a Deployment it does not create.
  lemma SecondSyncSucceedsIff(s: Store, ns: string, name: string)
    requires AnyInfra(s, ns, name) && IsInfra(InfraAt(s, ns, name)) && Known(InfraAt(s, ns, name).body.infraKind)
    requires Key(Deployment, ns, name) !in s.objs && MainKey(InfraAt(s, ns, name).body.infraKind) !in s.objs
    ensures var e := Sync(s, FreshCaches(s), ns, name, NO_FAULTS);
            && e.outcome == Synced && WellFormed(e.store)
            && var e' := Sync(e.store, FreshCaches(e.store), ns, name, NO_FAULTS);
               && (e'.outcome == Synced <==> Key(Deployment, ns, name) in Bundle(InfraAt(s, ns, name).body.infraKind))
               && (e'.outcome != Synced ==> e' == Ending(e.store, Failed(NotControlled)))
  {
    CreationSucceedsIff(s, ns, name);
    var t, d := Sync(s, FreshCaches(s), ns, name, NO_FAULTS).store, Key(Deployment, ns, name);
    var bundle := Bundle(InfraAt(s, ns, name).body.infraKind);
    if d in bundle {
      var j :| 0 <= j < |bundle| && bundle[j] == d;
      FirstSyncOwnsItsName(s, ns, name, j);
      OwnDeploymentSyncs(t, ns, name);
    } else {
      CreationSucceedsIff(t, ns, name);
      StaleCacheFailsHarmlessly(t, FreshCaches(t), ns, name, NO_FAULTS);
    }
  }

  lemma OwnDeploymentSyncs(s: Store, ns: string, name: string)
    requires AnyInfra(s, ns, name) && IsInfra(InfraAt(s, ns, name)) && Key(Deployment, ns, name) in s.objs
    requires ControlledBy(s.objs[Key(Deployment, ns, name)], InfraAt(s, ns, name))
    requires !WantsReplicas(InfraAt(s, ns, name), s.objs[Key(Deployment, ns, name)])
    ensures Sync(s, FreshCaches(s), ns, name, NO_FAULTS).outcome == Synced
  {
    var infra := InfraAt(s, ns, name);
    assert Filed(s, Key(Infrastructure, ns, name), infra);
    FinishStep(s, FreshCaches(s), Begin(ns, name), NO_FAULTS);
    var t := StatusStage(s, FreshCaches(s), infra, Available(s.objs[Key(Deployment, ns, name)]));
  }

  // ---- The update path and the order of the bundle ---------------------------

  // Whatever there is of the bundle sits on top of everything that precedes it.
  ghost predicate InPlace(s: Store, kind: InfraKind) {
    forall i | 0 <= i < |Bundle(kind)| && Bundle(kind)[i] in s.objs :: Reached(s, kind, i)
  }

  // Added Deployments are none of the first six objects.
  lemma ReachedIff(s: Store, t: Store, kind: InfraKind)
    requires Known(kind) && Shaped(kind) && DeploymentsAdded(s, t, kind)
    ensures Reached(t, kind, UPDATE_FROM) <==> Reached(s, kind, UPDATE_FROM)
  {
    forall j | 0 <= j < UPDATE_FROM
      ensures Bundle(kind)[j] in t.objs <==> Bundle(kind)[j] in s.objs
    {
      assert ItemShaped(kind, j);
    }
  }

  // Where the update path has been run to its end.
  lemma InPlaceIff(t: Store, kind: InfraKind)
    requires Known(kind) && kind != Dashboard && UpdateItemsExist(t, kind, UPDATE_FROM)
    ensures |Bundle(kind)| > UPDATE_FROM && (InPlace(t, kind) <==> Reached(t, kind, UPDATE_FROM))
  {
    BundleShape(kind);
    UpdateItemsFrom(t, kind, UPDATE_FROM);
    if Reached(t, kind, UPDATE_FROM) {
      forall i | 0 <= i < |Bundle(kind)| && Bundle(kind)[i] in t.objs
        ensures Reached(t, kind, i)
      {
        assert forall j | UPDATE_FROM <= j <= UpdateTo(kind) :: Bundle(kind)[j] in t.objs;
      }
    }
  }

  lemma UpdatePathItems(s: Store, c: Caches, infra: Object) returns (t: Store)
    requires WellFormed(s) && CachesOk(c) && OnUpdate(infra, UPDATE_FROM)
    ensures Finish(s, c, UpdateNamespace(infra), NO_FAULTS) == Finish(t, c, UpdateStatus(infra, 0), NO_FAULTS)
    ensures Grown(s, t) && UpdateItemsExist(t, infra.body.infraKind, UPDATE_FROM)
    ensures UPDATE_FROM <= |Bundle(infra.body.infraKind)|
    ensures Reached(t, infra.body.infraKind, UPDATE_FROM) <==> Reached(s, infra.body.infraKind, UPDATE_FROM)
  {
    var kind := infra.body.infraKind;
    var s1 := Creating(s, Namespace, NamespaceOf(kind)).store;
    BundleShape(kind);
    UpdatePathEntered(s, c, infra);
    NamespaceStage(s, kind);
    t := UpdateItemsStage(s1, c, infra, UPDATE_FROM);
    ReachedIff(s1, t, kind);
    NamespaceIsNoItem(s, s1, kind);
  }

  lemma NamespaceIsNoItem(s: Store, t: Store, kind: InfraKind)
    requires Known(kind) && Shaped(kind) && t.objs.Keys == s.objs.Keys + {NamespaceKey(kind)}
    ensures Reached(t, kind, UPDATE_FROM) <==> Reached(s, kind, UPDATE_FROM)
  {
    forall j | 0 <= j < UPDATE_FROM
      ensures Bundle(kind)[j] in t.objs <==> Bundle(kind)[j] in s.objs
    {
      assert ItemShaped(kind, j);
    }
  }

  // A sync that takes the update path - for it finds its own Deployment under its
  // name, in another number of replicas - leaves the bundle in place exactly when the
  // six objects were there that come before those the update path creates.
  lemma UpdatePathOrderIff(s: Store, ns: string, name: string)
    requires AnyInfra(s, ns, name) && IsInfra(InfraAt(s, ns, name)) && OnUpdate(InfraAt(s, ns, name), UPDATE_FROM)
    requires Key(Deployment, ns, name) in s.objs
    requires ControlledBy(s.objs[Key(Deployment, ns, name)], InfraAt(s, ns, name))
    requires WantsReplicas(InfraAt(s, ns, name), s.objs[Key(Deployment, ns, name)])
    ensures var kind := InfraAt(s, ns, name).body.infraKind;
            && UPDATE_FROM <= |Bundle(kind)|
            && (InPlace(Sync(s, FreshCaches(s), ns, name, NO_FAULTS).store, kind) <==> Reached(s, kind, UPDATE_FROM))
  {
    var infra, c := InfraAt(s, ns, name), FreshCaches(s);
    var kind := infra.body.infraKind;
    assert Filed(s, Key(Infrastructure, ns, name), infra);
    StartOnUpdatePath(s, c, ns, name, NO_FAULTS);
    var t := UpdatePathItems(s, c, infra);
    var t' := StatusStage(t, c, infra, 0);
    InPlaceIff(t, kind);
    assert InPlace(t', kind) <==> InPlace(t, kind) by {
      SameKeysInPlace(t, t', kind);
    }
  }

  lemma SameKeysInPlace(s: Store, t: Store, kind: InfraKind)
    requires t.objs.Keys == s.objs.Keys
    ensures InPlace(t, kind) <==> InPlace(s, kind)
  {
    assert forall n | 0 <= n <= |Bundle(kind)| :: Reached(t, kind, n) <==> Reached(s, kind, n);
  }

  // ---- A kind changed later ------------------------------------------------------

  // The store after somebody has given the Infrastructure another kind and number.
  function Switched(s: Store, ns: string, name: string, kind: InfraKind, wanted: int): Store
    requires Key(Infrastructure, ns, name) in s.objs && IsInfra(InfraAt(s, ns, name))
  {
    var infra := InfraAt(s, ns, name);
    var changed := infra.(rv := s.nextRv, body := infra.body.(infraKind := kind, wanted := Some(wanted)));
    Store(s.objs[Key(Infrastructure, ns, name) := changed], s.nextUid, s.nextRv + 1)
  }

  lemma SwitchedEvolves(s: Store, ns: string, name: string, kind: InfraKind, wanted: int)
    requires AnyInfra(s, ns, name) && IsInfra(InfraAt(s, ns, name))
    ensures var t := Switched(s, ns, name, kind, wanted); WellFormed(t) && Evolves(s, t) && Keeps(s, t)
  {
    var k, t := Key(Infrastructure, ns, name), Switched(s, ns, name, kind, wanted);
    assert Filed(s, k, s.objs[k]);
    assert forall m | m in t.objs && m != k :: SameAt(s, t, m);
    assert Fresh(s, t, k);
  }

  ghost predicate FirstItemAbsent(s: Store, kind: InfraKind) { |Bundle(kind)| > 0 && Bundle(kind)[0] !in s.objs }

  // What the first sync of an Infrastructure adds is of no other bundle.
  lemma OtherBundleAbsent(s: Store, ns: string, name: string, kind: InfraKind)
    requires HasInfra(s, ns, name) && MainKey(InfraAt(s, ns, name).body.infraKind) !in s.objs
    requires Known(kind) && kind != InfraAt(s, ns, name).body.infraKind && FirstItemAbsent(s, kind)
    ensures FirstItemAbsent(Sync(s, FreshCaches(s), ns, name, NO_FAULTS).store, kind)
  {
    var own, k := InfraAt(s, ns, name).body.infraKind, Bundle(kind)[0];
    SyncSucceedsIff(s, ns, name);
    BundleShape(kind);
    assert ItemShaped(kind, 0);
    if k in Bundle(own) {
      var j :| 0 <= j < |Bundle(own)| && Bundle(own)[j] == k;
      BundlesDisjoint(kind, 0, own, j);
    }
  }

  // Somebody gives the Infrastructure another kind and another number of replicas,
  // and its next sync leaves the bundle of that kind out of place.
  ghost predicate SwitchBreaksOrder(s: Store, ns: string, name: string, kind: InfraKind, wanted: int) {
    && AnyInfra(s, ns, name) && IsInfra(InfraAt(s, ns, name))
    && var t := Switched(s, ns, name, kind, wanted);
       && WellFormed(t) && Evolves(s, t) && Keeps(s, t)
       && !InPlace(Sync(t, FreshCaches(t), ns, name, NO_FAULTS).store, kind)
  }

  // The store holds the Infrastructure's own Deployment in n replicas, and nothing
  // of the first place of another bundle.
  ghost predicate Switchable(s: Store, ns: string, name: string, kind: InfraKind, n: int) {
    && AnyInfra(s, ns, name) && IsInfra(InfraAt(s, ns, name)) && FirstItemAbsent(s, kind)
    && var d := Key(Deployment, ns, name);
       && d in s.objs && ControlledBy(s.objs[d], InfraAt(s, ns, name))
       && s.objs[d].body.DeploymentBody? && s.objs[d].body.replicas == n
  }

  // The first sync of an Infrastructure leaves it so.
  lemma FirstSyncLeavesSwitchable(s: Store, ns: string, name: string, kind: InfraKind) returns (t: Store)
    requires HasInfra(s, ns, name) && MainKey(InfraAt(s, ns, name).body.infraKind) !in s.objs
    requires InfraAt(s, ns, name).body.wanted.Some?
    requires Known(kind) && kind != InfraAt(s, ns, name).body.infraKind && FirstItemAbsent(s, kind)
    ensures t == Sync(s, FreshCaches(s), ns, name, NO_FAULTS).store
    ensures Switchable(t, ns, name, kind, InfraAt(s, ns, name).body.wanted.value)
  {
    t := FirstSyncOwnsMain(s, ns, name);
    OtherBundleAbsent(s, ns, name, kind);
  }

  // Then, made one of Longhorn or RancherVM in one replica more, its own Deployment lets
  // it onto the update path of its new kind, which creates Deployments and nothing of
  // what precedes them.
  lemma SwitchedKindBreaksOrder(s: Store, ns: string, name: string, kind: InfraKind, n: int)
    requires Known(kind) && kind != Dashboard && Switchable(s, ns, name, kind, n)
    ensures SwitchBreaksOrder(s, ns, name, kind, n + 1)
  {
    SwitchedEvolves(s, ns, name, kind, n + 1);
    var t := Switched(s, ns, name, kind, n + 1);
    assert Filed(s, Key(Infrastructure, ns, name), InfraAt(s, ns, name));
    BundleShape(kind);
    assert ItemShaped(kind, 0);
    assert Bundle(kind)[0] !in t.objs;
    UpdatePathOrderIff(t, ns, name);
  }

  lemma FirstSyncOwnsMain(s: Store, ns: string, name: string) returns (t': Store)
    requires HasInfra(s, ns, name) && MainKey(InfraAt(s, ns, name).body.infraKind) !in s.objs
    requires InfraAt(s, ns, name).body.wanted.Some?
    ensures t' == Sync(s, FreshCaches(s), ns, name, NO_FAULTS).store
    ensures var d := Key(Deployment, ns, name);
            && AnyInfra(t', ns, name) && IsInfra(InfraAt(t', ns, name))
            && d in t'.objs && ControlledBy(t'.objs[d], InfraAt(t', ns, name))
            && t'.objs[d].body.DeploymentBody? && t'.objs[d].body.replicas == InfraAt(s, ns, name).body.wanted.value
  {
    var kind, t := InfraAt(s, ns, name).body.infraKind, s;
    InfraFacts(s, ns, name);
    BundleShape(kind);
    t, t' := FirstSync(s, ns, name);
    NamespaceStage(s, kind);
    FilledOwns(Creating(s, Namespace, NamespaceOf(kind)).store, InfraAt(s, ns, name), 0, |Bundle(kind)| - 1);
    assert ItemShaped(kind, |Bundle(kind)| - 1);
  }

  const LONGHORN_INFRA := Object("longhorn-system", "longhorn-frontend", 1, 1, None,
                                 InfraBody(Longhorn, Some(1), InfraStatus(Unset, 0, Silent)))

  // For one, a store that holds nothing but the Infrastructure.
  lemma LoneLonghornSwitched()
    ensures var s := Store(map[Key(Infrastructure, "longhorn-system", "longhorn-frontend") := LONGHORN_INFRA], 2, 2);
            && HasInfra(s, "longhorn-system", "longhorn-frontend")
            && SwitchBreaksOrder(Sync(s, FreshCaches(s), "longhorn-system", "longhorn-frontend", NO_FAULTS).store,
                                 "longhorn-system", "longhorn-frontend", RancherVM, 2)
  {
    var s := Store(map[Key(Infrastructure, "longhorn-system", "longhorn-frontend") := LONGHORN_INFRA], 2, 2);
    assert MainKey(Longhorn) == Key(Deployment, "longhorn-system", "longhorn-frontend");
    BundleShape(RancherVM);
    assert ItemShaped(RancherVM, 0);
    var t := FirstSyncLeavesSwitchable(s, "longhorn-system", "longhorn-frontend", RancherVM);
    SwitchedKindBreaksOrder(t, "longhorn-system", "longhorn-frontend", RancherVM, 1);
  }
}
