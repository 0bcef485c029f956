/**
 One sync of an Infrastructure (controller/infra_controller.go).

 An Infrastructure stands for a bundle of objects created one after the other,
 its main Deployment last. As in UserSync, Advance is one step of a worker and
 Finish runs it undisturbed.
 */
module InfraSync {
  import opened Options
  import opened KubeApi

  const DASHBOARD_NAMESPACE := "kube-system"
  const LONGHORN_NAMESPACE := "longhorn-system"
  const RANCHERVM_NAMESPACE := "ranchervm-system"

  predicate Known(kind: InfraKind) { !kind.Other? }

  function BundleNamespace(kind: InfraKind): string {
    if kind == Dashboard then DASHBOARD_NAMESPACE
    else if kind == Longhorn then LONGHORN_NAMESPACE
    else RANCHERVM_NAMESPACE
  }

  // The objects createDashboard, createLonghorn and createRancherVM create, in order.
  function Bundle(kind: InfraKind): seq<Key> {
    if kind == Dashboard then
      [ Key(Secret, DASHBOARD_NAMESPACE, "kubernetes-dashboard-certs"),
        Key(ServiceAccount, DASHBOARD_NAMESPACE, "kubernetes-dashboard"),
        Key(Role, DASHBOARD_NAMESPACE, "kubernetes-dashboard-minimal"),
        Key(RoleBinding, DASHBOARD_NAMESPACE, "kubernetes-dashboard-minimal"),
        Key(ClusterRoleBinding, "", "dashboard-admin"),
        Key(Service, DASHBOARD_NAMESPACE, "kubernetes-dashboard"),
        Key(Deployment, DASHBOARD_NAMESPACE, "kubernetes-dashboard") ]
    else if kind == Longhorn then
      [ Key(ServiceAccount, LONGHORN_NAMESPACE, "longhorn-service-account"),
        Key(ClusterRole, "", "longhorn-role"),
        Key(ClusterRoleBinding, "", "longhorn-bind"),
        Key(DaemonSet, LONGHORN_NAMESPACE, "longhorn-manager"),
        Key(Service, LONGHORN_NAMESPACE, "longhorn-backend"),
        Key(Service, LONGHORN_NAMESPACE, "longhorn-frontend"),
        Key(Deployment, LONGHORN_NAMESPACE, "longhorn-flexvolume-driver-deployer"),
        Key(Deployment, LONGHORN_NAMESPACE, "longhorn-frontend") ]
    else if kind == RancherVM then
      [ Key(ServiceAccount, RANCHERVM_NAMESPACE, "ranchervm-service-account"),
        Key(ClusterRole, "", "ranchervm-role"),
        Key(ClusterRoleBinding, "", "ranchervm-bind"),
        Key(DaemonSet, RANCHERVM_NAMESPACE, "ip-controller"),
        Key(Service, RANCHERVM_NAMESPACE, "ranchervm-backend"),
        Key(Service, RANCHERVM_NAMESPACE, "ranchervm-frontend"),
        Key(Deployment, RANCHERVM_NAMESPACE, "ranchervm-controller"),
        Key(Deployment, RANCHERVM_NAMESPACE, "ranchervm-backend"),
        Key(Deployment, RANCHERVM_NAMESPACE, "ranchervm-frontend") ]
    else []
  }

  // The update paths start at this place of the bundle, and go on to UpdateTo.
  const UPDATE_FROM := 6

  function UpdateTo(kind: InfraKind): nat {
    if kind == RancherVM then 8 else 6
  }

  function MainKey(kind: InfraKind): Key
    requires Known(kind)
  {
    Bundle(kind)[|Bundle(kind)| - 1]
  }

  // The service that detectService looks for.
  function ServiceKey(kind: InfraKind): Key
    requires Known(kind)
  {
    Key(Service, BundleNamespace(kind),
        if kind == Dashboard then "kubernetes-dashboard"
        else if kind == Longhorn then "longhorn-frontend" else "ranchervm-frontend")
  }

  predicate ItemShaped(kind: InfraKind, i: nat)
    requires i < |Bundle(kind)|
  {
    var k := Bundle(kind)[i];
    && k.kind != User && k.kind != Principal && k.kind != Infrastructure && k.kind != Namespace
    && (ClusterScoped(k.kind) ==> k.ns == "")
    && (UPDATE_FROM <= i <= UpdateTo(kind) ==> k.kind == Deployment)
    && (i < UPDATE_FROM ==> k.kind != Deployment)
  }

  predicate Shaped(kind: InfraKind) {
    && |Bundle(kind)| > UpdateTo(kind) >= UPDATE_FROM
    && forall i | 0 <= i < |Bundle(kind)| :: ItemShaped(kind, i)
  }

  lemma DashboardShape(i: nat)
    requires i < 7
    ensures ItemShaped(Dashboard, i)
  {
  }

  lemma LonghornShape(i: nat)
    requires i < 8
    ensures ItemShaped(Longhorn, i)
  {
  }

  lemma RancherVMShape(i: nat)
    requires i < 9
    ensures ItemShaped(RancherVM, i)
  {
  }

  lemma BundleShape(kind: InfraKind)
    requires Known(kind)
    ensures |Bundle(kind)| == if kind == Dashboard then 7 else if kind == Longhorn then 8 else 9
    ensures Shaped(kind)
    ensures MainKey(kind).kind == Deployment && MainKey(kind).ns == BundleNamespace(kind)
  {
    forall i | 0 <= i < |Bundle(kind)|
      ensures ItemShaped(kind, i)
    {
      if kind == Dashboard {
        DashboardShape(i);
      } else if kind == Longhorn {
        LonghornShape(i);
      } else {
        RancherVMShape(i);
      }
    }
    assert ItemShaped(kind, |Bundle(kind)| - 1);
  }

  lemma DashboardDistinct(i: nat, j: nat)
    requires i < 7 && j < 7
    ensures Bundle(Dashboard)[i] == Bundle(Dashboard)[j] <==> i == j
  {
  }

  lemma LonghornDistinct(i: nat, j: nat)
    requires i < 8 && j < 8
    ensures Bundle(Longhorn)[i] == Bundle(Longhorn)[j] <==> i == j
  {
  }

  lemma RancherVMDistinct(i: nat, j: nat)
    requires i < 9 && j < 9
    ensures Bundle(RancherVM)[i] == Bundle(RancherVM)[j] <==> i == j
  {
  }

  lemma DashboardApart(i: nat, kind: InfraKind, j: nat)
    requires i < 7 && Known(kind) && kind != Dashboard && j < |Bundle(kind)|
    ensures Bundle(Dashboard)[i] != Bundle(kind)[j]
  {
  }

  lemma LonghornApart(i: nat, j: nat)
    requires i < 8 && j < 9
    ensures Bundle(Longhorn)[i] != Bundle(RancherVM)[j]
  {
  }

  // No object belongs to two bundles, or to one bundle twice.
  lemma BundlesDisjoint(kind: InfraKind, i: nat, kind': InfraKind, j: nat)
    requires Known(kind) && Known(kind') && i < |Bundle(kind)| && j < |Bundle(kind')|
    ensures Bundle(kind)[i] == Bundle(kind')[j] <==> kind == kind' && i == j
  {
    BundleShape(kind);
    BundleShape(kind');
    match (kind, kind')
    case (Dashboard, Dashboard) => DashboardDistinct(i, j);
    case (Longhorn, Longhorn) => LonghornDistinct(i, j);
    case (RancherVM, RancherVM) => RancherVMDistinct(i, j);
    case (Dashboard, _) => DashboardApart(i, kind', j);
    case (_, Dashboard) => DashboardApart(j, kind, i);
    case (Longhorn, _) => LonghornApart(i, j);
    case (_, _) => LonghornApart(j, i);
  }

  // ---- The worker ----------------------------------------------------------

  // The snapshots the informers hold.
  datatype Caches = Caches(infras: Store, deployments: Store, services: Store)

  datatype Reason = Api(error: Error) | NotControlled | InvalidInfraKind
  datatype Outcome = Skipped | Synced | Failed(reason: Reason)

  datatype Worker =
    | Begin(ns: string, name: string)
    | CreateNamespace(infra: Object)
    | CreateItem(infra: Object, item: nat)
    | UpdateNamespace(infra: Object)
    | UpdateItem(infra: Object, item: nat)
    | UpdateMain(infra: Object)
    | UpdateStatus(infra: Object, available: int)
    | Finished(outcome: Outcome)

  predicate IsInfra(o: Object) { o.body.InfraBody? }

  // The server's default for a replica count that is not given is 1.
  function Replicas(infra: Object): int
    requires IsInfra(infra)
  {
    match infra.body.wanted case Some(n) => n case None => 1
  }

  function Item(infra: Object, item: nat): Object
    requires IsInfra(infra) && item < |Bundle(infra.body.infraKind)|
  {
    var k := Bundle(infra.body.infraKind)[item];
    Object(k.ns, k.name, 0, 0, Some(infra.uid),
           if k.kind == Deployment then DeploymentBody(Replicas(infra), 0) else Plain)
  }

  function NamespaceOf(kind: InfraKind): Object { Object("", BundleNamespace(kind), 0, 0, None, Plain) }

  function Available(d: Object): int { if d.body.DeploymentBody? then d.body.available else 0 }

  predicate WantsReplicas(infra: Object, d: Object)
    requires IsInfra(infra)
  {
    infra.body.wanted.Some? && d.body.DeploymentBody? && infra.body.wanted.value != d.body.replicas
  }

  // updateInfra: the status that reports the deployment and the service.
  function StatusOf(infra: Object, available: int, services: Store): InfraStatus
    requires IsInfra(infra)
  {
    var kind := infra.body.infraKind;
    var found := Known(kind) && ServiceKey(kind) in services.objs;
    var was := infra.body.status;
    if found && available > 0 then InfraStatus(Healthy, available, was.message)
    else InfraStatus(UnHealthy, available,
                     if found then was.message else if Known(kind) then ServiceMissing else InvalidKind)
  }

  function WithStatus(infra: Object, available: int, services: Store): Object
    requires IsInfra(infra)
  {
    infra.(body := infra.body.(status := StatusOf(infra, available, services)))
  }

  // With the deployment in hand: gate, replica check, status.
  function AfterDeployment(infra: Object, d: Object): Worker
    requires IsInfra(infra)
  {
    if !ControlledBy(d, infra) then Finished(Failed(NotControlled))
    else if WantsReplicas(infra, d) then
      if Known(infra.body.infraKind) then UpdateNamespace(infra) else Finished(Failed(InvalidInfraKind))
    else UpdateStatus(infra, Available(d))
  }

  function Start(caches: Caches, ns: string, name: string): Worker
    requires WellFormed(caches.infras)
  {
    var k := Key(Infrastructure, ns, name);
    if k !in caches.infras.objs || name == "" then Finished(Skipped)
    else
      var infra := caches.infras.objs[k];
      assert Filed(caches.infras, k, infra);
      var d := Key(Deployment, infra.ns, infra.name);
      if d in caches.deployments.objs then AfterDeployment(infra, caches.deployments.objs[d])
      else if Known(infra.body.infraKind) then CreateNamespace(infra)
      else Finished(Failed(InvalidInfraKind))
  }

  ghost predicate HoldsInfra(w: Worker) {
    && (!w.Begin? && !w.Finished? ==> IsInfra(w.infra))
    && (!w.Begin? && !w.Finished? && !w.UpdateStatus? ==> Known(w.infra.body.infraKind))
    && (w.CreateItem? ==> w.item < |Bundle(w.infra.body.infraKind)|)
    && (w.UpdateItem? ==>
          w.infra.body.infraKind != Dashboard && UPDATE_FROM <= w.item <= UpdateTo(w.infra.body.infraKind))
    && (w.UpdateMain? ==> w.infra.body.infraKind == Dashboard)
  }

  ghost predicate CachesOk(c: Caches) {
    WellFormed(c.infras) && WellFormed(c.deployments) && WellFormed(c.services)
  }

  datatype Progress = Progress(store: Store, worker: Worker)

  function Failing(r: Reply): Worker
    requires r.err.Some?
  {
    Finished(Failed(Api(r.err.value)))
  }

  function Advance(s: Store, caches: Caches, w: Worker, fault: Fault): Progress
    requires CachesOk(caches) && HoldsInfra(w)
  {
    match w
    case Begin(ns, name) =>
      Progress(s, Start(caches, ns, name))
    case CreateNamespace(infra) =>
      var a := Create(s, Namespace, NamespaceOf(infra.body.infraKind), fault);
      Progress(a.store, if Tolerated(a.reply) then CreateItem(infra, 0) else Failing(a.reply))
    case CreateItem(infra, item) =>
      var bundle := Bundle(infra.body.infraKind);
      var a := Create(s, bundle[item].kind, Item(infra, item), fault);
      Progress(a.store,
               if !Tolerated(a.reply) then Failing(a.reply)
               else if item + 1 < |bundle| then CreateItem(infra, item + 1)
               else AfterDeployment(infra, a.reply.obj))
    case UpdateNamespace(infra) =>
      var a := Create(s, Namespace, NamespaceOf(infra.body.infraKind), fault);
      Progress(a.store,
               if !Tolerated(a.reply) then Failing(a.reply)
               else if infra.body.infraKind == Dashboard then UpdateMain(infra)
               else UpdateItem(infra, UPDATE_FROM))
    case UpdateItem(infra, item) =>
      assert item < |Bundle(infra.body.infraKind)| by { BundleShape(infra.body.infraKind); }
      var a := Create(s, Deployment, Item(infra, item), fault);
      Progress(a.store,
               if !Tolerated(a.reply) then Failing(a.reply)
               else if item < UpdateTo(infra.body.infraKind) then UpdateItem(infra, item + 1)
               else UpdateStatus(infra, Available(a.reply.obj)))
    case UpdateMain(infra) =>
      var a := Update(s, Deployment, Item(infra, UPDATE_FROM), fault);
      Progress(a.store, if a.reply.err == None then UpdateStatus(infra, Available(a.reply.obj)) else Failing(a.reply))
    case UpdateStatus(infra, available) =>
      var a := Update(s, Infrastructure, WithStatus(infra, available, caches.services), fault);
      Progress(a.store, if a.reply.err == None then Finished(Synced) else Failing(a.reply))
    case Finished(_) =>
      Progress(s, w)
  }

  // ---- A whole sync, undisturbed by others ----------------------------------

  datatype Call =
    | NamespaceCall | ItemCall(item: nat)
    | UpdateNamespaceCall | UpdateItemCall(item: nat)
    | MainCall | StatusCall

  type Faults = Call -> Fault

  function FaultAt(faults: Faults, w: Worker): Fault {
    match w
    case CreateNamespace(_) => faults(NamespaceCall)
    case CreateItem(_, item) => faults(ItemCall(item))
    case UpdateNamespace(_) => faults(UpdateNamespaceCall)
    case UpdateItem(_, item) => faults(UpdateItemCall(item))
    case UpdateMain(_) => faults(MainCall)
    case UpdateStatus(_, _) => faults(StatusCall)
    case _ => NoFault
  }

  function StepsLeft(w: Worker): int {
    match w
    case Begin(_, _) => 22
    case CreateNamespace(_) => 21
    case CreateItem(_, item) => 20 - item
    case UpdateNamespace(_) => 10
    case UpdateItem(_, item) => 15 - item
    case UpdateMain(_) => 2
    case UpdateStatus(_, _) => 1
    case Finished(_) => 0
  }

  lemma AdvanceTerminates(s: Store, caches: Caches, w: Worker, fault: Fault)
    requires CachesOk(caches) && HoldsInfra(w)
    ensures HoldsInfra(Advance(s, caches, w, fault).worker)
    ensures 0 <= StepsLeft(w)
    ensures !w.Finished? ==> StepsLeft(Advance(s, caches, w, fault).worker) < StepsLeft(w)
  {
    if w.Begin? {
      var k := Key(Infrastructure, w.ns, w.name);
      assert k in caches.infras.objs ==> Filed(caches.infras, k, caches.infras.objs[k]);
    } else if !w.Finished? && Known(w.infra.body.infraKind) {
      BundleShape(w.infra.body.infraKind);
      if !w.UpdateStatus? {
        BundleStepTerminates(s, caches, w, fault);
      }
    }
  }

  lemma BundleStepTerminates(s: Store, caches: Caches, w: Worker, fault: Fault)
    requires CachesOk(caches) && HoldsInfra(w) && !w.Begin? && !w.Finished? && !w.UpdateStatus?
    requires |Bundle(w.infra.body.infraKind)| <= 9 && Shaped(w.infra.body.infraKind)
    ensures HoldsInfra(Advance(s, caches, w, fault).worker)
    ensures StepsLeft(Advance(s, caches, w, fault).worker) < StepsLeft(w)
  {
  }

  datatype Ending = Ending(store: Store, outcome: Outcome)

  function Finish(s: Store, caches: Caches, w: Worker, faults: Faults): Ending
    requires CachesOk(caches) && HoldsInfra(w)
    decreases StepsLeft(w)
  {
    if w.Finished? then Ending(s, w.outcome)
    else
      var p := Advance(s, caches, w, FaultAt(faults, w));
      AdvanceTerminates(s, caches, w, FaultAt(faults, w));
      Finish(p.store, caches, p.worker, faults)
  }

  function Sync(s: Store, caches: Caches, ns: string, name: string, faults: Faults): Ending
    requires CachesOk(caches)
  {
    Finish(s, caches, Begin(ns, name), faults)
  }

  lemma FinishStep(s: Store, caches: Caches, w: Worker, faults: Faults)
    requires CachesOk(caches) && HoldsInfra(w) && !w.Finished?
    ensures var p := Advance(s, caches, w, FaultAt(faults, w));
            HoldsInfra(p.worker) && Finish(s, caches, w, faults) == Finish(p.store, caches, p.worker, faults)
  {
    AdvanceTerminates(s, caches, w, FaultAt(faults, w));
  }
}
