/**
 What a sync of an Infrastructure leaves to be seen: when it has nothing to do, the
 status it reports, what exactly its update path adds, and that no object of a
 bundle refers to one that is not there.
 */
module InfraOutcomes {
  import opened Options
  import opened KubeApi
  import opened InfraSync
  import opened InfraWorld
  import opened InfraConvergence

  // ---- Nothing to do -----------------------------------------------------------

  // A sync is skipped exactly when the cache does not hold the Infrastructure, and then
  // nothing is written, whatever the other caches and the server hold.
  lemma SkippedIff(s: Store, c: Caches, ns: string, name: string, faults: Faults)
    requires CachesOk(c)
    ensures var e := Sync(s, c, ns, name, faults);
            && (e.outcome == Skipped <==> Key(Infrastructure, ns, name) !in c.infras.objs || name == "")
            && (e.outcome == Skipped ==> e.store == s)
  {
    var k := Key(Infrastructure, ns, name);
    FinishStep(s, c, Begin(ns, name), faults);
    if k in c.infras.objs && name != "" {
      assert Filed(c.infras, k, c.infras.objs[k]);
      OnlyTheStartSkips(s, c, Start(c, ns, name), faults);
    }
  }

  lemma {:induction false} OnlyTheStartSkips(s: Store, c: Caches, w: Worker, faults: Faults)
    requires CachesOk(c) && HoldsInfra(w) && !w.Begin? && w != Finished(Skipped)
    ensures Finish(s, c, w, faults).outcome != Skipped
    decreases StepsLeft(w)
  {
    if !w.Finished? {
      var p := Advance(s, c, w, FaultAt(faults, w));
      AdvanceTerminates(s, c, w, FaultAt(faults, w));
      OnlyTheStartSkips(p.store, c, p.worker, faults);
    }
  }

  // A call that fails, as it is or in its answer, ends the sync.
  lemma FailedCallEndsIt(s: Store, c: Caches, w: Worker, fault: Fault)
    requires CachesOk(c) && HoldsInfra(w) && fault != NoFault && !w.Begin? && !w.Finished?
    ensures Advance(s, c, w, fault).worker == Finished(Failed(Api(Transient)))
    ensures fault == Refused ==> Advance(s, c, w, fault).store == s
  {
    if !w.UpdateStatus? {
      BundleShape(w.infra.body.infraKind);
    }
  }

  // ---- Changed since it was read -------------------------------------------------

  // A sync of a cached Infrastructure that has since been changed or deleted does not
  // succeed, and neither writes it nor brings it back.
  lemma OutdatedInfraUntouched(s: Store, c: Caches, ns: string, name: string, faults: Faults)
    requires CachesOk(c) && Key(Infrastructure, ns, name) in c.infras.objs
    requires var k := Key(Infrastructure, ns, name); k in s.objs ==> s.objs[k].rv != c.infras.objs[k].rv
    ensures var k, e := Key(Infrastructure, ns, name), Sync(s, c, ns, name, faults);
            && e.outcome != Synced
            && (k in e.store.objs <==> k in s.objs)
            && (k in s.objs ==> e.store.objs[k] == s.objs[k])
  {
    var k := Key(Infrastructure, ns, name);
    assert Filed(c.infras, k, c.infras.objs[k]);
    FinishStep(s, c, Begin(ns, name), faults);
    OutdatedEnds(s, c, Start(c, ns, name), k, faults);
  }

  ghost predicate Outdated(s: Store, w: Worker, k: Key) {
    && k.kind == Infrastructure
    && (!w.Begin? && !w.Finished? ==>
          && k == KeyOf(Infrastructure, w.infra) && 0 < w.infra.rv
          && (k in s.objs ==> s.objs[k].rv != w.infra.rv))
  }

  lemma {:induction false} OutdatedEnds(s: Store, c: Caches, w: Worker, k: Key, faults: Faults)
    requires CachesOk(c) && HoldsInfra(w) && !w.Begin? && w != Finished(Synced) && Outdated(s, w, k)
    ensures var e := Finish(s, c, w, faults);
            && e.outcome != Synced
            && (k in e.store.objs <==> k in s.objs)
            && (k in s.objs ==> e.store.objs[k] == s.objs[k])
    decreases StepsLeft(w)
  {
    if !w.Finished? {
      var p := Advance(s, c, w, FaultAt(faults, w));
      AdvanceTerminates(s, c, w, FaultAt(faults, w));
      OutdatedStep(s, c, w, k, FaultAt(faults, w));
      OutdatedEnds(p.store, c, p.worker, k, faults);
    }
  }

  lemma OutdatedStep(s: Store, c: Caches, w: Worker, k: Key, fault: Fault)
    requires CachesOk(c) && HoldsInfra(w) && !w.Begin? && !w.Finished? && Outdated(s, w, k)
    ensures var p := Advance(s, c, w, fault);
            && (k in p.store.objs <==> k in s.objs)
            && (k in s.objs ==> p.store.objs[k] == s.objs[k])
            && (if p.worker.Finished? then p.worker != Finished(Synced)
                else !p.worker.Begin? && p.worker.infra == w.infra)
  {
    if w.CreateItem? || w.UpdateItem? || w.UpdateMain? {
      BundleStepSpares(s, c, w, k, fault);
    }
  }

  lemma BundleStepSpares(s: Store, c: Caches, w: Worker, k: Key, fault: Fault)
    requires CachesOk(c) && HoldsInfra(w) && (w.CreateItem? || w.UpdateItem? || w.UpdateMain?)
    requires k.kind == Infrastructure
    ensures var p := Advance(s, c, w, fault);
            && (k in p.store.objs <==> k in s.objs)
            && (k in s.objs ==> p.store.objs[k] == s.objs[k])
            && (if p.worker.Finished? then p.worker != Finished(Synced)
                else !p.worker.Begin? && p.worker.infra == w.infra)
  {
    var i := if w.UpdateMain? then UPDATE_FROM else w.item;
    BundleShape(w.infra.body.infraKind);
    assert ItemShaped(w.infra.body.infraKind, i);
    assert Bundle(w.infra.body.infraKind)[i] != k;
  }

  // ---- The status, whatever the caches show --------------------------------------

  // A status that a sync succeeds in writing, for any kind, tells of the replicas it
  // was handed and of the services cached.
  lemma StatusWritten(s: Store, c: Caches, infra: Object, available: int, fault: Fault)
    requires CachesOk(c) && IsInfra(infra)
    requires Advance(s, c, UpdateStatus(infra, available), fault).worker == Finished(Synced)
    ensures var k, t := KeyOf(Infrastructure, infra), Advance(s, c, UpdateStatus(infra, available), fault).store;
            && k in t.objs && IsInfra(t.objs[k])
            && var status, kind := t.objs[k].body.status, infra.body.infraKind;
               && (Known(kind) ==> Tells(status, available, ServiceThere(kind, c.services), infra.body.status.message))
               && (kind.Other? ==> status == InfraStatus(UnHealthy, available, InvalidKind))
  {
    if Known(infra.body.infraKind) {
      ServiceIsThere(infra.body.infraKind, c.services);
    }
  }

  // The service that health depends on is one that the bundle creates.
  lemma ServiceIsInBundle(kind: InfraKind, s: Store)
    requires Known(kind)
    ensures |Bundle(kind)| > 5
    ensures ServiceThere(kind, s) <==> Bundle(kind)[5] in s.objs
  {
    BundleShape(kind);
    ServiceIsThere(kind, s);
    match kind
    case Dashboard => assert ServiceKey(Dashboard) == Bundle(Dashboard)[5];
    case Longhorn => assert ServiceKey(Longhorn) == Bundle(Longhorn)[5];
    case RancherVM => assert ServiceKey(RancherVM) == Bundle(RancherVM)[5];
  }

  // ---- What is created --------------------------------------------------------------

  // A Deployment that any step creates asks for the wanted number of replicas, or for
  // one, and has none available yet.
  lemma NewDeployment(s: Store, c: Caches, w: Worker, fault: Fault, k: Key)
    requires CachesOk(c) && HoldsInfra(w) && WellFormed(s) && k.kind == Deployment
    requires k in Advance(s, c, w, fault).store.objs && k !in s.objs
    ensures !w.Begin? && !w.Finished?
    ensures var o, wanted := Advance(s, c, w, fault).store.objs[k], w.infra.body.wanted;
            && o.owner == Some(w.infra.uid) && o.body.DeploymentBody? && o.body.available == 0
            && o.body.replicas == if wanted.Some? then wanted.value else 1
  {
    NewObject(s, c, w, fault, k);
  }

  // The order in which the objects of each kind come.
  lemma BundleSequence(kind: InfraKind)
    requires Known(kind)
    ensures seq(|Bundle(kind)|, i requires 0 <= i < |Bundle(kind)| => Bundle(kind)[i].kind) ==
            if kind == Dashboard then
              [Secret, ServiceAccount, Role, RoleBinding, ClusterRoleBinding, Service, Deployment]
            else [ServiceAccount, ClusterRole, ClusterRoleBinding, DaemonSet, Service, Service]
                 + if kind == Longhorn then [Deployment, Deployment] else [Deployment, Deployment, Deployment]
    ensures kind == RancherVM ==> Bundle(kind)[6].name == "ranchervm-controller"
  {
    match kind
    case Dashboard =>
    case Longhorn =>
    case RancherVM =>
  }

  // A creation that is cut off where the Create of the j-th object is refused leaves
  // exactly the ones before it, beside all that there was.
  lemma {:induction false} CutCreation(s: Store, c: Caches, infra: Object, i: nat, j: nat, faults: Faults)
    requires WellFormed(s) && CachesOk(c) && IsInfra(infra) && Known(infra.body.infraKind)
    requires i <= j < |Bundle(infra.body.infraKind)| && faults(ItemCall(j)) == Refused
    requires forall m | i <= m < j :: faults(ItemCall(m)) == NoFault
    ensures var e := Finish(s, c, CreateItem(infra, i), faults);
            && e.outcome == Failed(Api(Transient)) && Grown(s, e.store)
            && forall k :: k in e.store.objs <==> k in s.objs || k in Bundle(infra.body.infraKind)[i..j]
    decreases j - i
  {
    if i == j {
      FinishStep(s, c, CreateItem(infra, i), faults);
    } else {
      var bundle := Bundle(infra.body.infraKind);
      CreationGoesOn(s, c, infra, i, faults);
      ItemCreated(s, infra, i);
      assert bundle[i..j] == [bundle[i]] + bundle[i + 1..j];
      CutCreation(Creating(s, bundle[i].kind, Item(infra, i)).store, c, infra, i + 1, j, faults);
    }
  }

  lemma CreationGoesOn(s: Store, c: Caches, infra: Object, i: nat, faults: Faults)
    requires CachesOk(c) && IsInfra(infra) && Known(infra.body.infraKind)
    requires i + 1 < |Bundle(infra.body.infraKind)| && faults(ItemCall(i)) == NoFault
    ensures Finish(s, c, CreateItem(infra, i), faults) ==
            Finish(Creating(s, Bundle(infra.body.infraKind)[i].kind, Item(infra, i)).store, c,
                   CreateItem(infra, i + 1), faults)
  {
    FinishStep(s, c, CreateItem(infra, i), faults);
  }

  ghost function UpdateItems(kind: InfraKind, from: nat): set<Key>
    requires Known(kind)
  {
    BundleShape(kind);
    set j | from <= j <= UpdateTo(kind) :: Bundle(kind)[j]
  }

  lemma UpdateItemsOneLess(kind: InfraKind, from: nat)
    requires Known(kind) && from <= UpdateTo(kind) < |Bundle(kind)|
    ensures UpdateItems(kind, from) == {Bundle(kind)[from]} + UpdateItems(kind, from + 1)
  {
  }

  lemma {:induction false} ToppedKeys(s: Store, infra: Object, i: nat)
    requires WellFormed(s) && OnUpdate(infra, i)
    ensures Topped(s, infra, i).objs.Keys == s.objs.Keys + UpdateItems(infra.body.infraKind, i)
    decreases UpdateTo(infra.body.infraKind) - i
  {
    var kind := infra.body.infraKind;
    BundleShape(kind);
    ItemCreated(s, infra, i);
    UpdateItemsOneLess(kind, i);
    var s1 := Creating(s, Deployment, Item(infra, i)).store;
    if i < UpdateTo(kind) {
      ToppedKeys(s1, infra, i + 1);
      assert Topped(s, infra, i) == Topped(s1, infra, i + 1);
    } else {
      NoUpdateItems(kind, i + 1);
      assert Topped(s, infra, i) == s1;
    }
  }

  lemma NoUpdateItems(kind: InfraKind, from: nat)
    requires Known(kind) && UpdateTo(kind) < from
    ensures UpdateItems(kind, from) == {}
  {
  }

  // The Deployments that the update path of a kind creates where they are missing.
  function Added(kind: InfraKind): set<Key> {
    if kind == Longhorn then {Key(Deployment, "longhorn-system", "longhorn-flexvolume-driver-deployer")}
    else if kind == RancherVM then
      { Key(Deployment, "ranchervm-system", "ranchervm-controller"),
        Key(Deployment, "ranchervm-system", "ranchervm-backend"),
        Key(Deployment, "ranchervm-system", "ranchervm-frontend") }
    else {}
  }

  lemma UpdateItemsAreAdded(kind: InfraKind)
    requires kind == Longhorn || kind == RancherVM
    ensures UpdateItems(kind, UPDATE_FROM) == Added(kind)
  {
    BundleShape(kind);
    if kind == Longhorn {
      assert Bundle(Longhorn)[6] in Added(Longhorn);
    } else {
      var b := Bundle(RancherVM);
      assert b[6] in Added(RancherVM) && b[7] in Added(RancherVM) && b[8] in Added(RancherVM);
    }
  }

  // A Longhorn or a RancherVM that ought to be scaled is not: its namespace and those
  // Deployments are there afterwards, and nothing else is new.
  lemma UpdatePathAdds(s: Store, ns: string, name: string)
    requires HasInfra(s, ns, name) && MainFree(s, InfraAt(s, ns, name)) && Mismatch(s, InfraAt(s, ns, name))
    requires InfraAt(s, ns, name).body.infraKind != Dashboard
    ensures var kind, t := InfraAt(s, ns, name).body.infraKind, Sync(s, FreshCaches(s), ns, name, NO_FAULTS).store;
            t.objs.Keys == s.objs.Keys + {Key(Namespace, "", BundleNamespace(kind))} + Added(kind)
  {
    var infra, c := InfraAt(s, ns, name), FreshCaches(s);
    var s1 := Creating(s, Namespace, NamespaceOf(infra.body.infraKind)).store;
    InfraFacts(s, ns, name);
    BundleShape(infra.body.infraKind);
    FinishStep(s, c, Begin(ns, name), NO_FAULTS);
    UpdatePathEntered(s, c, infra);
    NamespaceStage(s, infra.body.infraKind);
    ToppedRun(s1, c, infra, UPDATE_FROM);
    ToppedKeys(s1, infra, UPDATE_FROM);
    ToppedAdds(s1, infra, UPDATE_FROM);
    UpdateItemsAreAdded(infra.body.infraKind);
    var t := StatusStage(Topped(s1, infra, UPDATE_FROM), c, infra, 0);
  }

  // ---- References --------------------------------------------------------------------

  // The objects of its bundle that an object names: a binding its role and its service
  // account, a Deployment or DaemonSet the account it runs under, the secret it mounts
  // and the service it calls.
  function References(k: Key): set<Key> {
    if k == Key(RoleBinding, "kube-system", "kubernetes-dashboard-minimal") then
      { Key(Role, "kube-system", "kubernetes-dashboard-minimal"),
        Key(ServiceAccount, "kube-system", "kubernetes-dashboard") }
    else if k == Key(ClusterRoleBinding, "", "dashboard-admin") then
      { Key(ServiceAccount, "kube-system", "kubernetes-dashboard") }
    else if k == Key(Deployment, "kube-system", "kubernetes-dashboard") then
      { Key(ServiceAccount, "kube-system", "kubernetes-dashboard"),
        Key(Secret, "kube-system", "kubernetes-dashboard-certs") }
    else if k == Key(ClusterRoleBinding, "", "longhorn-bind") then
      { Key(ClusterRole, "", "longhorn-role"), Key(ServiceAccount, "longhorn-system", "longhorn-service-account") }
    else if k == Key(DaemonSet, "longhorn-system", "longhorn-manager")
         || k == Key(Deployment, "longhorn-system", "longhorn-flexvolume-driver-deployer") then
      { Key(ServiceAccount, "longhorn-system", "longhorn-service-account") }
    else if k == Key(Deployment, "longhorn-system", "longhorn-frontend") then
      { Key(Service, "longhorn-system", "longhorn-backend") }
    else if k == Key(ClusterRoleBinding, "", "ranchervm-bind") then
      { Key(ClusterRole, "", "ranchervm-role"), Key(ServiceAccount, "ranchervm-system", "ranchervm-service-account") }
    else if k == Key(DaemonSet, "ranchervm-system", "ip-controller")
         || k == Key(Deployment, "ranchervm-system", "ranchervm-controller")
         || k == Key(Deployment, "ranchervm-system", "ranchervm-backend") then
      { Key(ServiceAccount, "ranchervm-system", "ranchervm-service-account") }
    else if k == Key(Deployment, "ranchervm-system", "ranchervm-frontend") then
      { Key(Service, "ranchervm-system", "ranchervm-backend") }
    else {}
  }

  // Bindings and workloads refer to something, and nothing else does.
  lemma ReferringIff(kind: InfraKind, i: nat)
    requires Known(kind) && i < |Bundle(kind)|
    ensures References(Bundle(kind)[i]) != {} <==> Referring(Bundle(kind)[i].kind)
  {
    BundleShape(kind);
    match kind
    case Dashboard => DashboardReferring(i);
    case Longhorn => LonghornReferring(i);
    case RancherVM => RancherVMReferring(i);
  }

  predicate Referring(kind: Kind) {
    kind == RoleBinding || kind == ClusterRoleBinding || kind == DaemonSet || kind == Deployment
  }

  lemma DashboardReferring(i: nat)
    requires i < 7
    ensures References(Bundle(Dashboard)[i]) != {} <==> Referring(Bundle(Dashboard)[i].kind)
  {
  }

  lemma LonghornReferring(i: nat)
    requires i < 8
    ensures References(Bundle(Longhorn)[i]) != {} <==> Referring(Bundle(Longhorn)[i].kind)
  {
  }

  lemma RancherVMReferring(i: nat)
    requires i < 9
    ensures References(Bundle(RancherVM)[i]) != {} <==> Referring(Bundle(RancherVM)[i].kind)
  {
  }

  // What an object refers to comes before it in its bundle.
  lemma ReferencesComeFirst(kind: InfraKind, i: nat, r: Key)
    requires Known(kind) && i < |Bundle(kind)| && r in References(Bundle(kind)[i])
    ensures r in Bundle(kind)[..i]
  {
    var b := Bundle(kind);
    if kind == Dashboard {
      DashboardReferences(i, r);
    } else if kind == Longhorn {
      LonghornReferences(i, r);
    } else {
      RancherVMReferences(i, r);
    }
  }

  lemma DashboardReferences(i: nat, r: Key)
    requires i < 7 && r in References(Bundle(Dashboard)[i])
    ensures r in Bundle(Dashboard)[..i]
  {
    var b := Bundle(Dashboard);
    assert i > 1 && (b[..i][0] == b[0] && b[..i][1] == b[1]);
    assert i > 2 ==> b[..i][2] == b[2];
  }

  lemma LonghornReferences(i: nat, r: Key)
    requires i < 8 && r in References(Bundle(Longhorn)[i])
    ensures r in Bundle(Longhorn)[..i]
  {
    var b := Bundle(Longhorn);
    assert i > 1 && (b[..i][0] == b[0] && b[..i][1] == b[1]);
    assert i > 4 ==> b[..i][4] == b[4];
  }

  lemma RancherVMReferences(i: nat, r: Key)
    requires i < 9 && r in References(Bundle(RancherVM)[i])
    ensures r in Bundle(RancherVM)[..i]
  {
    var b := Bundle(RancherVM);
    assert i > 1 && (b[..i][0] == b[0] && b[..i][1] == b[1]);
    assert i > 4 ==> b[..i][4] == b[4];
  }

  // ---- In every run --------------------------------------------------------------------

  // The i-th action is a worker's step, and afterwards there is an object under k.
  ghost predicate Creates(run: seq<World>, acts: seq<Action>, i: nat, k: Key)
    requires |run| == |acts| + 1 && i < |acts|
  {
    && acts[i].Act?
    && 0 < |run[i].history| && 0 < |run[i + 1].history|
    && k in Now(run[i + 1]).objs && k !in Now(run[i]).objs
  }

  lemma AddsOne(s: Store, c: Caches, w: Worker, fault: Fault, k: Key)
    requires CachesOk(c) && HoldsInfra(w)
    requires k in Advance(s, c, w, fault).store.objs && k !in s.objs
    ensures var t := Advance(s, c, w, fault).store; t.objs[k].uid == s.nextUid < t.nextUid
  {
  }

  lemma CreationIsRecorded(run: seq<World>, acts: seq<Action>, i: nat, k: Key)
    requires IsSoundRun(run, acts) && i < |acts| && Creates(run, acts, i, k)
    ensures Now(run[i + 1]).objs[k].uid in run[i + 1].made
  {
    RunKeepsInv(run, acts, i);
    var w, a := run[i], acts[i];
    assert Step(w, a, run[i + 1]);
    AddsOne(Now(w), CachesAt(w.history, a.views), w.agents[a.id].at, a.fault, k);
  }

  lemma StepKeeps(w: World, a: Action, w': World)
    requires Inv(w) && Typed(w) && Step(w, a, w')
    ensures 0 < |w'.history| && Keeps(Now(w), Now(w')) && w.made <= w'.made
  {
    if a.Act? {
      assert AgentOk(w.history, w.agents[a.id]);
      ActEvolves(w.history, CachesAt(w.history, a.views), w.agents[a.id], a.fault);
    }
  }

  lemma {:induction false} MadeStays(run: seq<World>, acts: seq<Action>, i: nat, n: nat, k: Key)
    requires IsSoundRun(run, acts) && i <= n < |run| && 0 < |run[i].history| && k in Now(run[i]).objs
    requires Now(run[i]).objs[k].uid in run[i].made
    ensures 0 < |run[n].history| && k in Now(run[n]).objs && Now(run[n]).objs[k].uid in run[n].made
  {
    if i < n {
      MadeStays(run, acts, i, n - 1, k);
      RunKeepsInv(run, acts, n - 1);
      assert Step(run[n - 1], acts[n - 1], run[n]);
      StepKeeps(run[n - 1], acts[n - 1], run[n]);
    }
  }

  // From the moment a worker creates an object of a bundle, all the objects before it
  // are there, and so is whatever it refers to.
  lemma NothingDangles(run: seq<World>, acts: seq<Action>, i: nat, n: nat, kind: InfraKind, j: nat)
    requires IsSoundRun(run, acts) && i < n < |run|
    requires Known(kind) && j < |Bundle(kind)| && Creates(run, acts, i, Bundle(kind)[j])
    ensures 0 < |run[n].history|
    ensures forall m | 0 <= m <= j :: Bundle(kind)[m] in Now(run[n]).objs
    ensures References(Bundle(kind)[j]) <= Now(run[n]).objs.Keys
  {
    var k := Bundle(kind)[j];
    CreationIsRecorded(run, acts, i, k);
    MadeStays(run, acts, i + 1, n, k);
    BundlesGrowInOrder(run, acts, n, kind, j);
    forall r | r in References(k)
      ensures r in Now(run[n]).objs
    {
      ReferencesComeFirst(kind, j, r);
    }
  }
}
