/**
 What one undisturbed sync of an Infrastructure achieves: exactly when it
 succeeds, exactly when it brings the replicas to the wanted number, that a
 second sync changes nothing, and how it fails on a stale cache.
 */
module InfraConvergence {
  import opened Options
  import opened KubeApi
  import opened InfraSync
  import opened InfraWorld

  function FreshCaches(s: Store): Caches { Caches(s, s, s) }

  const NO_FAULTS: Faults := _ => NoFault

  ghost predicate HasInfra(s: Store, ns: string, name: string) {
    && WellFormed(s)
    && Key(Infrastructure, ns, name) in s.objs
    && name != ""
    && Canonical(s.objs[Key(Infrastructure, ns, name)])
    && Known(s.objs[Key(Infrastructure, ns, name)].body.infraKind)
  }

  function InfraAt(s: Store, ns: string, name: string): Object
    requires Key(Infrastructure, ns, name) in s.objs
  {
    s.objs[Key(Infrastructure, ns, name)]
  }

  lemma InfraFacts(s: Store, ns: string, name: string)
    requires HasInfra(s, ns, name)
    ensures var o := InfraAt(s, ns, name);
            && IsInfra(o) && o.ns == ns && o.name == name && 0 < o.rv
            && Key(Deployment, ns, name) == MainKey(o.body.infraKind)
  {
    assert Filed(s, Key(Infrastructure, ns, name), InfraAt(s, ns, name));
  }

  function NamespaceKey(kind: InfraKind): Key { Key(Namespace, "", BundleNamespace(kind)) }

  // ---- Bundle creation ------------------------------------------------------

  // A cache that misses the main Deployment of a complete bundle: the sync runs
  // into AlreadyExists to the end, gets an empty Deployment and gives up. No
  // failure on the way makes it change anything.
  lemma {:induction false} CompleteBundleUntouched(s: Store, c: Caches, infra: Object, i: nat, faults: Faults)
    requires WellFormed(s) && CachesOk(c) && IsInfra(infra) && Known(infra.body.infraKind)
    requires i < |Bundle(infra.body.infraKind)| && Complete(s, infra.body.infraKind)
    ensures var e := Finish(s, c, CreateItem(infra, i), faults); e.store == s && e.outcome.Failed?
    ensures faults == NO_FAULTS ==> Finish(s, c, CreateItem(infra, i), faults).outcome == Failed(NotControlled)
    decreases |Bundle(infra.body.infraKind)| - i
  {
    FinishStep(s, c, CreateItem(infra, i), faults);
    ItemFits(infra, i);
    if i + 1 < |Bundle(infra.body.infraKind)| {
      CompleteBundleUntouched(s, c, infra, i + 1, faults);
    }
  }

  lemma StaleCacheFailsHarmlessly(s: Store, c: Caches, ns: string, name: string, faults: Faults)
    requires WellFormed(s) && CachesOk(c) && name != ""
    requires var k := Key(Infrastructure, ns, name);
             && k in c.infras.objs && IsInfra(c.infras.objs[k]) && Known(c.infras.objs[k].body.infraKind)
             && Complete(s, c.infras.objs[k].body.infraKind)
             && NamespaceKey(c.infras.objs[k].body.infraKind) in s.objs
    requires Key(Deployment, ns, name) !in c.deployments.objs
    ensures var e := Sync(s, c, ns, name, faults); e.store == s && e.outcome.Failed?
    ensures faults == NO_FAULTS ==> Sync(s, c, ns, name, faults).outcome == Failed(NotControlled)
  {
    var k := Key(Infrastructure, ns, name);
    var infra := c.infras.objs[k];
    assert Filed(c.infras, k, infra);
    FinishStep(s, c, Begin(ns, name), faults);
    FinishStep(s, c, CreateNamespace(infra), faults);
    BundleShape(infra.body.infraKind);
    CompleteBundleUntouched(s, c, infra, 0, faults);
  }

  // The store once the bundle has been created from its i-th object on.
  ghost function Filled(s: Store, infra: Object, i: nat): Store
    requires IsInfra(infra) && Known(infra.body.infraKind) && i <= |Bundle(infra.body.infraKind)|
    decreases |Bundle(infra.body.infraKind)| - i
  {
    if i == |Bundle(infra.body.infraKind)| then s
    else Filled(Creating(s, Bundle(infra.body.infraKind)[i].kind, Item(infra, i)).store, infra, i + 1)
  }

  // t is s with objects added.
  ghost predicate Grown(s: Store, t: Store) {
    WellFormed(t) && forall k | k in s.objs :: k in t.objs && t.objs[k] == s.objs[k]
  }

  lemma ItemCreated(s: Store, infra: Object, i: nat)
    requires WellFormed(s) && IsInfra(infra) && Known(infra.body.infraKind) && i < |Bundle(infra.body.infraKind)|
    ensures var k := Bundle(infra.body.infraKind)[i];
            var t := Creating(s, k.kind, Item(infra, i)).store;
            && Grown(s, t)
            && t.objs.Keys == s.objs.Keys + {k}
            && (k !in s.objs ==> t.objs[k].owner == Some(infra.uid) && t.objs[k].body == Item(infra, i).body)
            && (k in s.objs ==> t == s)
  {
    ItemFits(infra, i);
    CreateEvolves(s, Bundle(infra.body.infraKind)[i].kind, Item(infra, i), NoFault);
  }

  lemma {:induction false} FilledIsComplete(s: Store, infra: Object, i: nat)
    requires WellFormed(s) && IsInfra(infra) && Known(infra.body.infraKind)
    requires i <= |Bundle(infra.body.infraKind)| && Reached(s, infra.body.infraKind, i)
    ensures Grown(s, Filled(s, infra, i)) && Complete(Filled(s, infra, i), infra.body.infraKind)
    ensures forall k | k in Filled(s, infra, i).objs :: k in s.objs || k in Bundle(infra.body.infraKind)
    decreases |Bundle(infra.body.infraKind)| - i
  {
    var kind := infra.body.infraKind;
    if i < |Bundle(kind)| {
      ItemCreated(s, infra, i);
      FilledIsComplete(Creating(s, Bundle(kind)[i].kind, Item(infra, i)).store, infra, i + 1);
    }
  }

  lemma FillStep(s: Store, c: Caches, infra: Object, i: nat)
    requires WellFormed(s) && CachesOk(c)
    requires IsInfra(infra) && Known(infra.body.infraKind) && i < |Bundle(infra.body.infraKind)|
    ensures var a := Create(s, Bundle(infra.body.infraKind)[i].kind, Item(infra, i), NoFault);
            Finish(s, c, CreateItem(infra, i), NO_FAULTS) ==
            Finish(a.store, c,
                   if i + 1 < |Bundle(infra.body.infraKind)| then CreateItem(infra, i + 1)
                   else AfterDeployment(infra, a.reply.obj), NO_FAULTS)
  {
    FinishStep(s, c, CreateItem(infra, i), NO_FAULTS);
  }

  // The main Deployment comes last, so it is there only in the end.
  lemma {:induction false} FillRun(s: Store, c: Caches, infra: Object, i: nat)
    requires WellFormed(s) && CachesOk(c) && IsInfra(infra) && Known(infra.body.infraKind)
    requires i < |Bundle(infra.body.infraKind)| && MainKey(infra.body.infraKind) !in s.objs
    ensures var t, m := Filled(s, infra, i), MainKey(infra.body.infraKind);
            && m in t.objs && t.objs[m].owner == Some(infra.uid)
            && t.objs[m].body == DeploymentBody(Replicas(infra), 0)
            && Finish(s, c, CreateItem(infra, i), NO_FAULTS) ==
               Finish(t, c, AfterDeployment(infra, t.objs[m]), NO_FAULTS)
    decreases |Bundle(infra.body.infraKind)| - i
  {
    var kind := infra.body.infraKind;
    FillStep(s, c, infra, i);
    ItemCreated(s, infra, i);
    ItemFits(infra, i);
    var s1 := Creating(s, Bundle(kind)[i].kind, Item(infra, i)).store;
    if i + 1 < |Bundle(kind)| {
      NotMain(kind, i);
      FillRun(s1, c, infra, i + 1);
    } else {
      BundleShape(kind);
      assert Filled(s, infra, i) == s1;
    }
  }

  lemma NotMain(kind: InfraKind, i: nat)
    requires Known(kind) && i + 1 < |Bundle(kind)|
    ensures Bundle(kind)[i] != MainKey(kind)
  {
    BundlesDisjoint(kind, i, kind, |Bundle(kind)| - 1);
  }

  // ---- The update path --------------------------------------------------------

  // The objects the update path of Longhorn and RancherVM creates when missing.
  ghost predicate UpdateItemsExist(s: Store, kind: InfraKind, from: nat)
    requires Known(kind)
  {
    BundleShape(kind);
    forall j | from <= j <= UpdateTo(kind) && j < |Bundle(kind)| :: Bundle(kind)[j] in s.objs
  }

  ghost predicate DeploymentsAdded(s: Store, t: Store, kind: InfraKind) {
    Grown(s, t) && forall k | k in t.objs :: k in s.objs || (k.kind == Deployment && k in Bundle(kind))
  }

  lemma UpdateItemsFrom(s: Store, kind: InfraKind, i: nat)
    requires Known(kind) && UPDATE_FROM <= i <= UpdateTo(kind) && i < |Bundle(kind)|
    ensures UpdateItemsExist(s, kind, i) <==>
      Bundle(kind)[i] in s.objs && (i < UpdateTo(kind) ==> UpdateItemsExist(s, kind, i + 1))
  {
  }

  predicate OnUpdate(infra: Object, i: nat) {
    IsInfra(infra) && Known(infra.body.infraKind) && infra.body.infraKind != Dashboard
    && UPDATE_FROM <= i <= UpdateTo(infra.body.infraKind)
  }

  // The store once the update path has run from its i-th object on.
  ghost function Topped(s: Store, infra: Object, i: nat): Store
    requires OnUpdate(infra, i)
    decreases UpdateTo(infra.body.infraKind) - i
  {
    BundleShape(infra.body.infraKind);
    var s1 := Creating(s, Deployment, Item(infra, i)).store;
    if i < UpdateTo(infra.body.infraKind) then Topped(s1, infra, i + 1) else s1
  }

  lemma {:induction false} ToppedAdds(s: Store, infra: Object, i: nat)
    requires WellFormed(s) && OnUpdate(infra, i)
    ensures DeploymentsAdded(s, Topped(s, infra, i), infra.body.infraKind)
    decreases UpdateTo(infra.body.infraKind) - i
  {
    BundleShape(infra.body.infraKind);
    ItemCreated(s, infra, i);
    if i < UpdateTo(infra.body.infraKind) {
      ToppedAdds(Creating(s, Deployment, Item(infra, i)).store, infra, i + 1);
    }
  }

  lemma {:induction false} ToppedExists(s: Store, infra: Object, i: nat)
    requires WellFormed(s) && OnUpdate(infra, i)
    ensures UpdateItemsExist(Topped(s, infra, i), infra.body.infraKind, i)
    decreases UpdateTo(infra.body.infraKind) - i
  {
    BundleShape(infra.body.infraKind);
    ItemCreated(s, infra, i);
    var s1 := Creating(s, Deployment, Item(infra, i)).store;
    if i < UpdateTo(infra.body.infraKind) {
      ToppedExists(s1, infra, i + 1);
      ToppedAdds(s1, infra, i + 1);
    }
    UpdateItemsFrom(Topped(s, infra, i), infra.body.infraKind, i);
  }

  lemma {:induction false} ToppedAlready(s: Store, infra: Object, i: nat)
    requires WellFormed(s) && OnUpdate(infra, i) && UpdateItemsExist(s, infra.body.infraKind, i)
    ensures Topped(s, infra, i) == s
    decreases UpdateTo(infra.body.infraKind) - i
  {
    BundleShape(infra.body.infraKind);
    ItemCreated(s, infra, i);
    UpdateItemsFrom(s, infra.body.infraKind, i);
    if i < UpdateTo(infra.body.infraKind) {
      ToppedAlready(s, infra, i + 1);
    }
  }

  lemma {:induction false} ToppedRun(s: Store, c: Caches, infra: Object, i: nat)
    requires WellFormed(s) && CachesOk(c) && OnUpdate(infra, i)
    ensures Finish(s, c, UpdateItem(infra, i), NO_FAULTS) ==
            Finish(Topped(s, infra, i), c, UpdateStatus(infra, 0), NO_FAULTS)
    decreases UpdateTo(infra.body.infraKind) - i
  {
    UpdateItemRun(s, c, infra, i);
    ItemCreated(s, infra, i);
    if i < UpdateTo(infra.body.infraKind) {
      ToppedRun(Creating(s, Deployment, Item(infra, i)).store, c, infra, i + 1);
    }
  }

  lemma UpdateItemsStage(s: Store, c: Caches, infra: Object, i: nat) returns (t: Store)
    requires WellFormed(s) && CachesOk(c) && OnUpdate(infra, i)
    ensures DeploymentsAdded(s, t, infra.body.infraKind)
    ensures UpdateItemsExist(t, infra.body.infraKind, i)
    ensures UpdateItemsExist(s, infra.body.infraKind, i) ==> t == s
    ensures Finish(s, c, UpdateItem(infra, i), NO_FAULTS) == Finish(t, c, UpdateStatus(infra, 0), NO_FAULTS)
  {
    t := Topped(s, infra, i);
    ToppedAdds(s, infra, i);
    ToppedExists(s, infra, i);
    ToppedRun(s, c, infra, i);
    if UpdateItemsExist(s, infra.body.infraKind, i) {
      ToppedAlready(s, infra, i);
    }
  }

  lemma UpdateItemRun(s: Store, c: Caches, infra: Object, i: nat)
    requires WellFormed(s) && CachesOk(c) && IsInfra(infra) && Known(infra.body.infraKind)
    requires infra.body.infraKind != Dashboard && UPDATE_FROM <= i <= UpdateTo(infra.body.infraKind)
    ensures i < |Bundle(infra.body.infraKind)| && Bundle(infra.body.infraKind)[i].kind == Deployment
    ensures Finish(s, c, UpdateItem(infra, i), NO_FAULTS)
         == Finish(Creating(s, Deployment, Item(infra, i)).store, c,
                   if i < UpdateTo(infra.body.infraKind) then UpdateItem(infra, i + 1) else UpdateStatus(infra, 0),
                   NO_FAULTS)
  {
    BundleShape(infra.body.infraKind);
    ItemFits(infra, i);
    FinishStep(s, c, UpdateItem(infra, i), NO_FAULTS);
  }

  // ---- The status -------------------------------------------------------------

  // Only the infrastructure differs, and of it only the status.
  ghost predicate Reported(t: Store, t': Store, infra: Object, status: InfraStatus)
    requires IsInfra(infra)
  {
    var k := KeyOf(Infrastructure, infra);
    && WellFormed(t')
    && t'.objs.Keys == t.objs.Keys
    && (forall m | m in t.objs && m != k :: t'.objs[m] == t.objs[m])
    && k in t'.objs
    && t'.objs[k].(rv := infra.rv) == infra.(body := infra.body.(status := status))
    && (infra.body.status == status ==> t' == t)
  }

  lemma StatusStage(t: Store, c: Caches, infra: Object, available: int) returns (t': Store)
    requires WellFormed(t) && CachesOk(c) && IsInfra(infra)
    requires KeyOf(Infrastructure, infra) in t.objs && t.objs[KeyOf(Infrastructure, infra)] == infra
    ensures Finish(t, c, UpdateStatus(infra, available), NO_FAULTS) == Ending(t', Synced)
    ensures Reported(t, t', infra, StatusOf(infra, available, c.services))
  {
    assert Filed(t, KeyOf(Infrastructure, infra), infra);
    FinishStep(t, c, UpdateStatus(infra, available), NO_FAULTS);
    var o := WithStatus(infra, available, c.services);
    UpdateEvolves(t, Infrastructure, o, NoFault);
    t' := Update(t, Infrastructure, o, NoFault).store;
  }

  // ---- A whole sync ------------------------------------------------------------

  predicate MainFree(s: Store, infra: Object)
    requires IsInfra(infra) && Known(infra.body.infraKind)
  {
    var m := MainKey(infra.body.infraKind); m in s.objs ==> ControlledBy(s.objs[m], infra)
  }

  predicate Mismatch(s: Store, infra: Object)
    requires IsInfra(infra) && Known(infra.body.infraKind)
  {
    var m := MainKey(infra.body.infraKind);
    && m in s.objs && infra.body.wanted.Some? && s.objs[m].body.DeploymentBody?
    && s.objs[m].body.replicas != infra.body.wanted.value
  }

  // The Service that an Infrastructure of the kind is reached by.
  predicate ServiceThere(kind: InfraKind, s: Store) {
    || (kind == Dashboard && Key(Service, "kube-system", "kubernetes-dashboard") in s.objs)
    || (kind == Longhorn && Key(Service, "longhorn-system", "longhorn-frontend") in s.objs)
    || (kind == RancherVM && Key(Service, "ranchervm-system", "ranchervm-frontend") in s.objs)
  }

  lemma ServiceIsThere(kind: InfraKind, s: Store)
    requires Known(kind)
    ensures ServiceThere(kind, s) <==> ServiceKey(kind) in s.objs
  {
  }

  // The status says how many replicas are available, that all is well exactly when
  // some are and the service is there, and what is missing if the service is.
  predicate Tells(status: InfraStatus, available: int, service: bool, was: Complaint) {
    && status.available == available
    && (status.state == Healthy <==> service && available > 0)
    && (status.state == UnHealthy <==> !service || available <= 0)
    && status.message == if service then was else ServiceMissing
  }

  // The replicas a sync finds available: those of the main Deployment, but none when it
  // creates that one, or would have to scale it and is not of kind Dashboard.
  function AvailableThere(s: Store, infra: Object): int
    requires IsInfra(infra) && Known(infra.body.infraKind)
  {
    var m := MainKey(infra.body.infraKind);
    if m in s.objs && s.objs[m].body.DeploymentBody? && (Mismatch(s, infra) ==> infra.body.infraKind == Dashboard)
    then s.objs[m].body.available
    else 0
  }

  // A store in which there is nothing left to do for an Infrastructure.
  ghost predicate Settled(t: Store, ns: string, name: string) {
    && HasInfra(t, ns, name)
    && var infra := InfraAt(t, ns, name);
       var kind := infra.body.infraKind;
       && MainKey(kind) in t.objs && ControlledBy(t.objs[MainKey(kind)], infra)
       && (Mismatch(t, infra) ==>
             kind != Dashboard && NamespaceKey(kind) in t.objs && UpdateItemsExist(t, kind, UPDATE_FROM))
       && Tells(infra.body.status, if Mismatch(t, infra) then 0 else Available(t.objs[MainKey(kind)]),
                ServiceThere(kind, t), infra.body.status.message)
  }

  lemma SettledIsFixpoint(t: Store, ns: string, name: string)
    requires Settled(t, ns, name)
    ensures Sync(t, FreshCaches(t), ns, name, NO_FAULTS) == Ending(t, Synced)
  {
    InfraFacts(t, ns, name);
    var infra, c := InfraAt(t, ns, name), FreshCaches(t);
    var kind := infra.body.infraKind;
    BundleShape(kind);
    FinishStep(t, c, Begin(ns, name), NO_FAULTS);
    ToldIsWritten(infra, if Mismatch(t, infra) then 0 else Available(t.objs[MainKey(kind)]), t);
    if Mismatch(t, infra) {
      FinishStep(t, c, UpdateNamespace(infra), NO_FAULTS);
      var t1 := UpdateItemsStage(t, c, infra, UPDATE_FROM);
      var t2 := StatusStage(t, c, infra, 0);
    } else {
      var t2 := StatusStage(t, c, infra, Available(t.objs[MainKey(kind)]));
    }
  }

  // What was there is as it was, but for a Dashboard's main Deployment, and what is
  // new belongs to the bundle.
  ghost predicate RestUntouched(s: Store, t: Store, kind: InfraKind)
    requires Known(kind)
  {
    && (forall k | k in s.objs && (kind != Dashboard || k != MainKey(kind)) :: k in t.objs && t.objs[k] == s.objs[k])
    && (forall k | k in t.objs :: k in s.objs || k == NamespaceKey(kind) || k in Bundle(kind))
  }

  // What the stages before the status achieve: the store the status is written
  // to, and the replicas available it reports.
  ghost predicate MainDone(s: Store, t: Store, infra: Object, available: int)
    requires IsInfra(infra) && Known(infra.body.infraKind)
  {
    var kind := infra.body.infraKind;
    && WellFormed(t)
    && RestUntouched(s, t, kind)
    && MainKey(kind) in t.objs && ControlledBy(t.objs[MainKey(kind)], infra)
    && (Mismatch(t, infra) ==>
          kind != Dashboard && NamespaceKey(kind) in t.objs && UpdateItemsExist(t, kind, UPDATE_FROM))
    && available == (if Mismatch(t, infra) then 0 else Available(t.objs[MainKey(kind)])) == AvailableThere(s, infra)
    && (ServiceKey(kind) in t.objs ==> ServiceKey(kind) in s.objs || available == 0)
    && (MainKey(kind) !in s.objs ==> Complete(t, kind) && NamespaceKey(kind) in t.objs)
    && (Mismatch(t, infra) <==> Mismatch(s, infra) && kind != Dashboard)
  }

  lemma NamespaceStage(s: Store, kind: InfraKind)
    requires WellFormed(s)
    ensures var t := Creating(s, Namespace, NamespaceOf(kind)).store;
            Grown(s, t) && t.objs.Keys == s.objs.Keys + {NamespaceKey(kind)}
  {
    CreateEvolves(s, Namespace, NamespaceOf(kind), NoFault);
  }

  lemma CreationStage(s: Store, c: Caches, infra: Object) returns (t: Store)
    requires WellFormed(s) && CachesOk(c) && IsInfra(infra) && Known(infra.body.infraKind)
    requires MainKey(infra.body.infraKind) !in s.objs
    ensures t == Filled(Creating(s, Namespace, NamespaceOf(infra.body.infraKind)).store, infra, 0)
    ensures MainDone(s, t, infra, 0)
    ensures Finish(s, c, CreateNamespace(infra), NO_FAULTS) == Finish(t, c, UpdateStatus(infra, 0), NO_FAULTS)
  {
    var kind := infra.body.infraKind;
    BundleShape(kind);
    FinishStep(s, c, CreateNamespace(infra), NO_FAULTS);
    NamespaceStage(s, kind);
    var s1 := Creating(s, Namespace, NamespaceOf(kind)).store;
    t := Filled(s1, infra, 0);
    FillRun(s1, c, infra, 0);
    FilledIsDone(s, s1, infra);
  }

  lemma FilledIsDone(s: Store, s1: Store, infra: Object)
    requires IsInfra(infra) && Known(infra.body.infraKind) && Grown(s, s1) && MainKey(infra.body.infraKind) !in s.objs
    requires s1.objs.Keys == s.objs.Keys + {NamespaceKey(infra.body.infraKind)}
    requires var t, m := Filled(s1, infra, 0), MainKey(infra.body.infraKind);
             m in t.objs && t.objs[m].owner == Some(infra.uid) && t.objs[m].body == DeploymentBody(Replicas(infra), 0)
    ensures MainDone(s, Filled(s1, infra, 0), infra, 0)
  {
    FilledIsComplete(s1, infra, 0);
  }

  lemma MismatchStage(s: Store, c: Caches, infra: Object) returns (t: Store, available: int)
    requires WellFormed(s) && CachesOk(c) && IsInfra(infra) && Known(infra.body.infraKind)
    requires Mismatch(s, infra) && MainFree(s, infra)
    ensures MainDone(s, t, infra, available)
    ensures Finish(s, c, UpdateNamespace(infra), NO_FAULTS) == Finish(t, c, UpdateStatus(infra, available), NO_FAULTS)
  {
    if infra.body.infraKind == Dashboard {
      t := DashboardMismatch(s, c, infra);
      available := Available(t.objs[MainKey(Dashboard)]);
    } else {
      t := CreatesMismatch(s, c, infra);
      available := 0;
    }
  }

  lemma DashboardMismatch(s: Store, c: Caches, infra: Object) returns (t: Store)
    requires WellFormed(s) && CachesOk(c) && IsInfra(infra) && infra.body.infraKind == Dashboard
    requires Mismatch(s, infra) && MainFree(s, infra)
    ensures MainKey(Dashboard) in t.objs && MainDone(s, t, infra, Available(t.objs[MainKey(Dashboard)]))
    ensures Finish(s, c, UpdateNamespace(infra), NO_FAULTS)
         == Finish(t, c, UpdateStatus(infra, Available(t.objs[MainKey(Dashboard)])), NO_FAULTS)
  {
    BundleShape(Dashboard);
    FinishStep(s, c, UpdateNamespace(infra), NO_FAULTS);
    NamespaceStage(s, Dashboard);
    t := DashboardStage(Creating(s, Namespace, NamespaceOf(Dashboard)).store, c, infra);
  }

  lemma UpdatePathEntered(s: Store, c: Caches, infra: Object)
    requires WellFormed(s) && CachesOk(c) && OnUpdate(infra, UPDATE_FROM)
    ensures Finish(s, c, UpdateNamespace(infra), NO_FAULTS) ==
            Finish(Creating(s, Namespace, NamespaceOf(infra.body.infraKind)).store, c, UpdateItem(infra, UPDATE_FROM),
                   NO_FAULTS)
  {
    FinishStep(s, c, UpdateNamespace(infra), NO_FAULTS);
    NamespaceStage(s, infra.body.infraKind);
  }

  lemma CreatesMismatch(s: Store, c: Caches, infra: Object) returns (t: Store)
    requires WellFormed(s) && CachesOk(c) && OnUpdate(infra, UPDATE_FROM)
    requires Mismatch(s, infra) && MainFree(s, infra)
    ensures MainDone(s, t, infra, 0)
    ensures Finish(s, c, UpdateNamespace(infra), NO_FAULTS) == Finish(t, c, UpdateStatus(infra, 0), NO_FAULTS)
  {
    var kind := infra.body.infraKind;
    BundleShape(kind);
    UpdatePathEntered(s, c, infra);
    NamespaceStage(s, kind);
    t := UpdateItemsStage(Creating(s, Namespace, NamespaceOf(kind)).store, c, infra, UPDATE_FROM);
  }

  lemma MainStage(s: Store, ns: string, name: string) returns (t: Store, available: int)
    requires HasInfra(s, ns, name) && MainFree(s, InfraAt(s, ns, name))
    ensures var infra := InfraAt(s, ns, name);
            && MainDone(s, t, infra, available)
            && Sync(s, FreshCaches(s), ns, name, NO_FAULTS)
               == Finish(t, FreshCaches(s), UpdateStatus(infra, available), NO_FAULTS)
  {
    InfraFacts(s, ns, name);
    var infra, c := InfraAt(s, ns, name), FreshCaches(s);
    var kind := infra.body.infraKind;
    BundleShape(kind);
    FinishStep(s, c, Begin(ns, name), NO_FAULTS);
    if MainKey(kind) !in s.objs {
      t := CreationStage(s, c, infra);
      available := 0;
    } else if Mismatch(s, infra) {
      t, available := MismatchStage(s, c, infra);
    } else {
      t, available := s, Available(s.objs[MainKey(kind)]);
      assert Filed(s, MainKey(kind), s.objs[MainKey(kind)]);
    }
  }

  lemma DashboardStage(s: Store, c: Caches, infra: Object) returns (t: Store)
    requires WellFormed(s) && CachesOk(c) && IsInfra(infra) && infra.body.infraKind == Dashboard
    requires MainKey(Dashboard) in s.objs && ControlledBy(s.objs[MainKey(Dashboard)], infra)
    ensures WellFormed(t) && t.objs.Keys == s.objs.Keys
    ensures forall k | k in s.objs && k != MainKey(Dashboard) :: t.objs[k] == s.objs[k]
    ensures ControlledBy(t.objs[MainKey(Dashboard)], infra)
    ensures t.objs[MainKey(Dashboard)].body.DeploymentBody?
    ensures t.objs[MainKey(Dashboard)].body.replicas == Replicas(infra)
    ensures Available(t.objs[MainKey(Dashboard)]) == Available(s.objs[MainKey(Dashboard)])
    ensures Finish(s, c, UpdateMain(infra), NO_FAULTS)
         == Finish(t, c, UpdateStatus(infra, Available(t.objs[MainKey(Dashboard)])), NO_FAULTS)
  {
    BundleShape(Dashboard);
    ItemFits(infra, UPDATE_FROM);
    FinishStep(s, c, UpdateMain(infra), NO_FAULTS);
    assert Filed(s, MainKey(Dashboard), s.objs[MainKey(Dashboard)]);
    UpdateEvolves(s, Deployment, Item(infra, UPDATE_FROM), NoFault);
    t := Update(s, Deployment, Item(infra, UPDATE_FROM), NoFault).store;
  }

  // The Infrastructure itself apart.
  ghost predicate OthersUntouched(s: Store, t: Store, ns: string, name: string)
    requires HasInfra(s, ns, name)
  {
    var kind := InfraAt(s, ns, name).body.infraKind;
    && (forall k | k in s.objs && k != Key(Infrastructure, ns, name) && (kind != Dashboard || k != MainKey(kind)) ::
          k in t.objs && t.objs[k] == s.objs[k])
    && (forall k | k in t.objs :: k in s.objs || k == NamespaceKey(kind) || k in Bundle(kind))
  }

  // Reporting the same facts again reports the same status.
  lemma StatusIdempotent(infra: Object, infra': Object, available: int, s: Store, t: Store)
    requires IsInfra(infra) && IsInfra(infra') && Known(infra.body.infraKind)
    requires infra' == infra.(rv := infra'.rv, body := infra.body.(status := StatusOf(infra, available, s)))
    requires ServiceKey(infra.body.infraKind) in s.objs ==> ServiceKey(infra.body.infraKind) in t.objs
    requires ServiceKey(infra.body.infraKind) in t.objs ==> ServiceKey(infra.body.infraKind) in s.objs || available == 0
    ensures Tells(infra'.body.status, available, ServiceThere(infra.body.infraKind, t), infra'.body.status.message)
  {
    ServiceIsThere(infra.body.infraKind, s);
    ServiceIsThere(infra.body.infraKind, t);
  }

  // What Tells leaves open is what the controller writes.
  lemma ToldIsWritten(infra: Object, available: int, t: Store)
    requires IsInfra(infra) && Known(infra.body.infraKind)
    requires Tells(infra.body.status, available, ServiceThere(infra.body.infraKind, t), infra.body.status.message)
    ensures infra.body.status == StatusOf(infra, available, t)
  {
    ServiceIsThere(infra.body.infraKind, t);
  }

  lemma StatusSettles(s: Store, t: Store, t': Store, ns: string, name: string, available: int)
    requires HasInfra(s, ns, name) && Known(InfraAt(s, ns, name).body.infraKind)
    requires MainDone(s, t, InfraAt(s, ns, name), available)
    requires Reported(t, t', InfraAt(s, ns, name), StatusOf(InfraAt(s, ns, name), available, s))
    ensures Settled(t', ns, name)
    ensures var kind := InfraAt(s, ns, name).body.infraKind;
            MainKey(kind) !in s.objs ==> Complete(t', kind) && NamespaceKey(kind) in t'.objs
    ensures OthersUntouched(s, t', ns, name)
  {
    InfraFacts(s, ns, name);
    var infra := InfraAt(s, ns, name);
    var infra' := t'.objs[Key(Infrastructure, ns, name)];
    var kind := infra.body.infraKind;
    BundleShape(kind);
    assert infra' == infra.(rv := infra'.rv, body := infra.body.(status := StatusOf(infra, available, s)));
    assert ServiceKey(kind) in t'.objs <==> ServiceKey(kind) in t.objs;
    StatusIdempotent(infra, infra', available, s, t');
    assert t'.objs[MainKey(kind)] == t.objs[MainKey(kind)];
  }

  // ---- Main results --------------------------------------------------------------

  // A fault-free sync with fresh caches succeeds exactly when the main Deployment
  // is absent or the Infrastructure's own. It then controls it, a bundle that was
  // missing its main Deployment is complete, and there is nothing left to do.
  lemma SyncSucceedsIff(s: Store, ns: string, name: string)
    requires HasInfra(s, ns, name)
    ensures var infra, e := InfraAt(s, ns, name), Sync(s, FreshCaches(s), ns, name, NO_FAULTS);
            var m := MainKey(infra.body.infraKind);
            && (e.outcome == Synced <==> MainFree(s, infra))
            && (e.outcome == Synced ==>
                  && Settled(e.store, ns, name)
                  && OthersUntouched(s, e.store, ns, name)
                  && (m !in s.objs ==> (
                        && Complete(e.store, infra.body.infraKind)
                        && NamespaceKey(infra.body.infraKind) in e.store.objs)))
            && (e.outcome != Synced ==> e == Ending(s, Failed(NotControlled)))
  {
    InfraFacts(s, ns, name);
    var infra, c := InfraAt(s, ns, name), FreshCaches(s);
    var kind := infra.body.infraKind;
    if MainFree(s, infra) {
      var t, available := MainStage(s, ns, name);
      var t' := StatusStage(t, c, infra, available);
      StatusSettles(s, t, t', ns, name, available);
    } else {
      FinishStep(s, c, Begin(ns, name), NO_FAULTS);
    }
  }

  // What that sync reports: the replicas it found available, and whether the service was
  // there before it. That is the number the main Deployment has exactly unless a
  // Longhorn or a RancherVM has some and ought to be scaled; it is then reported to have
  // none, and unhealthy.
  lemma StatusReported(s: Store, ns: string, name: string)
    requires HasInfra(s, ns, name) && MainFree(s, InfraAt(s, ns, name))
    ensures var infra, t := InfraAt(s, ns, name), Sync(s, FreshCaches(s), ns, name, NO_FAULTS).store;
            && HasInfra(t, ns, name)
            && var kind, status := infra.body.infraKind, InfraAt(t, ns, name).body.status;
               && Tells(status, AvailableThere(s, infra), ServiceThere(kind, s), infra.body.status.message)
               && MainKey(kind) in t.objs && t.objs[MainKey(kind)].body.DeploymentBody?
               && (status.available == t.objs[MainKey(kind)].body.available <==>
                     kind == Dashboard || !Mismatch(s, infra) || t.objs[MainKey(kind)].body.available == 0)
  {
    InfraFacts(s, ns, name);
    SyncSucceedsIff(s, ns, name);
    var infra, c := InfraAt(s, ns, name), FreshCaches(s);
    var t, available := MainStage(s, ns, name);
    var t' := StatusStage(t, c, infra, available);
    ReportIsTold(s, t, t', infra, available);
    assert InfraAt(t', ns, name) == t'.objs[KeyOf(Infrastructure, infra)];
  }

  lemma ReportIsTold(s: Store, t: Store, t': Store, infra: Object, available: int)
    requires IsInfra(infra) && Known(infra.body.infraKind) && MainDone(s, t, infra, available)
    requires Reported(t, t', infra, StatusOf(infra, available, s))
    ensures var kind, status := infra.body.infraKind, t'.objs[KeyOf(Infrastructure, infra)].body.status;
            && Tells(status, AvailableThere(s, infra), ServiceThere(kind, s), infra.body.status.message)
            && MainKey(kind) in t'.objs && t'.objs[MainKey(kind)].body.DeploymentBody?
            && (status.available == t'.objs[MainKey(kind)].body.available <==>
                  kind == Dashboard || !Mismatch(s, infra) || t'.objs[MainKey(kind)].body.available == 0)
  {
    var kind := infra.body.infraKind;
    BundleShape(kind);
    ServiceIsThere(kind, s);
    assert t'.objs[MainKey(kind)] == t.objs[MainKey(kind)];
    assert Filed(t, MainKey(kind), t.objs[MainKey(kind)]);
  }

  // The wanted number of replicas is reached exactly when the kind is Dashboard,
  // or the main Deployment was still to be created or had that number already.
  lemma ReplicasReachedIff(s: Store, ns: string, name: string)
    requires HasInfra(s, ns, name) && MainFree(s, InfraAt(s, ns, name))
    ensures var infra, t := InfraAt(s, ns, name), Sync(s, FreshCaches(s), ns, name, NO_FAULTS).store;
            && HasInfra(t, ns, name)
            && (!Mismatch(t, InfraAt(t, ns, name)) <==> infra.body.infraKind == Dashboard || !Mismatch(s, infra))
  {
    InfraFacts(s, ns, name);
    SyncSucceedsIff(s, ns, name);
    var infra, c := InfraAt(s, ns, name), FreshCaches(s);
    var t, available := MainStage(s, ns, name);
    var t' := StatusStage(t, c, infra, available);
    BundleShape(infra.body.infraKind);
    assert t'.objs[MainKey(infra.body.infraKind)] == t.objs[MainKey(infra.body.infraKind)];
  }

  // A second sync changes nothing - even where the replicas are still wrong.
  lemma SyncTwiceIsSyncOnce(s: Store, ns: string, name: string)
    requires HasInfra(s, ns, name) && MainFree(s, InfraAt(s, ns, name))
    ensures var e := Sync(s, FreshCaches(s), ns, name, NO_FAULTS);
            WellFormed(e.store) && Sync(e.store, FreshCaches(e.store), ns, name, NO_FAULTS) == e
  {
    SyncSucceedsIff(s, ns, name);
    SettledIsFixpoint(Sync(s, FreshCaches(s), ns, name, NO_FAULTS).store, ns, name);
  }
}
