/**
 The infrastructure controller in the shape of its source, proved to do what
 runs of InfraSync.Advance do. The source writes out the Creates of each bundle
 one by one; here they are a walk over the bundle's list.
 */
module InfraController {
  import opened Options
  import opened KubeApi
  import opened InfraSync

  // Go's (deployment, err): err is None for nil.
  datatype Trouble = NoError | ApiError(error: Error) | KindError

  function AsReason(f: Trouble): Reason
    requires !f.NoError?
  {
    if f.KindError? then InvalidInfraKind else Api(f.error)
  }

  class Controller {
    const api: ApiServer
    var caches: Caches

    constructor (api: ApiServer, caches: Caches)
      ensures this.api == api && this.caches == caches
    {
      this.api := api;
      this.caches := caches;
    }

    method SyncHandler(ns: string, name: string, faults: Faults) returns (outcome: Outcome)
      requires CachesOk(caches)
      modifies api
      ensures Ending(api.store, outcome) == Sync(old(api.store), caches, ns, name, faults)
    {
      FinishStep(api.store, caches, Begin(ns, name), faults);
      var k := Key(Infrastructure, ns, name);
      if k !in caches.infras.objs {
        return Skipped;
      }
      var infra := caches.infras.objs[k];
      assert Filed(caches.infras, k, infra);
      if infra.name == "" {
        return Skipped;
      }

      var deployment: Object;
      var err := NoError;
      var d := Key(Deployment, infra.ns, infra.name);
      if d in caches.deployments.objs {
        deployment := caches.deployments.objs[d];
      } else {
        deployment, err := BundleCreate(infra, faults);
      }
      if !err.NoError? {
        return Failed(AsReason(err));
      }
      if !ControlledBy(deployment, infra) {
        return Failed(NotControlled);
      }
      var status := Available(deployment);
      if WantsReplicas(infra, deployment) {
        status, err := BundleUpdate(infra, faults);
      }
      if !err.NoError? {
        return Failed(AsReason(err));
      }
      var failed := UpdateInfra(infra, status, faults);
      outcome := if failed.Some? then Failed(Api(failed.value)) else Synced;
    }

    method BundleCreate(infra: Object, faults: Faults) returns (deployment: Object, err: Trouble)
      requires CachesOk(caches) && IsInfra(infra)
      modifies api
      ensures !Known(infra.body.infraKind) ==> err == KindError && api.store == old(api.store)
      ensures Known(infra.body.infraKind) ==> !err.KindError?
      ensures Known(infra.body.infraKind) ==>
        Finish(old(api.store), caches, CreateNamespace(infra), faults) ==
          if err.NoError? then Finish(api.store, caches, AfterDeployment(infra, deployment), faults)
          else Ending(api.store, Failed(AsReason(err)))
    {
      deployment, err := NO_OBJECT, KindError;
      if Known(infra.body.infraKind) {
        deployment, err := CreateBundle(infra, faults);
      }
    }

    // createDashboard, createLonghorn, createRancherVM
    method CreateBundle(infra: Object, faults: Faults) returns (deployment: Object, err: Trouble)
      requires CachesOk(caches) && IsInfra(infra) && Known(infra.body.infraKind)
      modifies api
      ensures !err.KindError?
      ensures Finish(old(api.store), caches, CreateNamespace(infra), faults) ==
          if err.NoError? then Finish(api.store, caches, AfterDeployment(infra, deployment), faults)
          else Ending(api.store, Failed(AsReason(err)))
    {
      var bundle := Bundle(infra.body.infraKind);
      BundleShape(infra.body.infraKind);
      deployment := NO_OBJECT;
      FinishStep(api.store, caches, CreateNamespace(infra), faults);
      var r := api.DoCreate(Namespace, NamespaceOf(infra.body.infraKind), faults(NamespaceCall));
      if r.err.Some? && r.err != Some(AlreadyExists) {
        return NO_OBJECT, ApiError(r.err.value);
      }
      for i := 0 to |bundle|
        invariant Finish(old(api.store), caches, CreateNamespace(infra), faults) ==
          Finish(api.store, caches,
                 if i < |bundle| then CreateItem(infra, i) else AfterDeployment(infra, deployment), faults)
      {
        FinishStep(api.store, caches, CreateItem(infra, i), faults);
        r := api.DoCreate(bundle[i].kind, Item(infra, i), faults(ItemCall(i)));
        if r.err.Some? && r.err != Some(AlreadyExists) {
          return NO_OBJECT, ApiError(r.err.value);
        }
        deployment := r.obj;
      }
      err := NoError;
    }

    // The status of the Deployment an update path hands back is all that is used of it.
    method BundleUpdate(infra: Object, faults: Faults) returns (available: int, err: Trouble)
      requires CachesOk(caches) && IsInfra(infra)
      modifies api
      ensures !Known(infra.body.infraKind) ==> err == KindError && api.store == old(api.store)
      ensures Known(infra.body.infraKind) ==> !err.KindError?
      ensures Known(infra.body.infraKind) ==>
        Finish(old(api.store), caches, UpdateNamespace(infra), faults) ==
          if err.NoError? then Finish(api.store, caches, UpdateStatus(infra, available), faults)
          else Ending(api.store, Failed(AsReason(err)))
    {
      if !Known(infra.body.infraKind) {
        return 0, KindError;
      }
      FinishStep(api.store, caches, UpdateNamespace(infra), faults);
      var r := api.DoCreate(Namespace, NamespaceOf(infra.body.infraKind), faults(UpdateNamespaceCall));
      if r.err.Some? && r.err != Some(AlreadyExists) {
        return 0, ApiError(r.err.value);
      }
      if infra.body.infraKind == Dashboard {
        available, err := UpdateDashboard(infra, faults);
      } else {
        available, err := CreateMissing(infra, faults);
      }
    }

    // updateDashboard
    method UpdateDashboard(infra: Object, faults: Faults) returns (available: int, err: Trouble)
      requires CachesOk(caches) && IsInfra(infra) && infra.body.infraKind == Dashboard
      modifies api
      ensures !err.KindError?
      ensures Finish(old(api.store), caches, UpdateMain(infra), faults) ==
          if err.NoError? then Finish(api.store, caches, UpdateStatus(infra, available), faults)
          else Ending(api.store, Failed(AsReason(err)))
    {
      BundleShape(Dashboard);
      FinishStep(api.store, caches, UpdateMain(infra), faults);
      var r := api.DoUpdate(Deployment, Item(infra, UPDATE_FROM), faults(MainCall));
      if r.err.Some? {
        return 0, ApiError(r.err.value);
      }
      return Available(r.obj), NoError;
    }

    // updateLonghorn and updateRancherVM: Creates under another name.
    method CreateMissing(infra: Object, faults: Faults) returns (available: int, err: Trouble)
      requires CachesOk(caches) && IsInfra(infra) && Known(infra.body.infraKind) && infra.body.infraKind != Dashboard
      modifies api
      ensures !err.KindError?
      ensures Finish(old(api.store), caches, UpdateItem(infra, UPDATE_FROM), faults) ==
          if err.NoError? then Finish(api.store, caches, UpdateStatus(infra, available), faults)
          else Ending(api.store, Failed(AsReason(err)))
    {
      BundleShape(infra.body.infraKind);
      var to := UpdateTo(infra.body.infraKind);
      available := 0;
      for i := UPDATE_FROM to to + 1
        invariant Finish(old(api.store), caches, UpdateItem(infra, UPDATE_FROM), faults) ==
          Finish(api.store, caches, if i <= to then UpdateItem(infra, i) else UpdateStatus(infra, available), faults)
      {
        FinishStep(api.store, caches, UpdateItem(infra, i), faults);
        var r := api.DoCreate(Deployment, Item(infra, i), faults(UpdateItemCall(i)));
        if r.err.Some? && r.err != Some(AlreadyExists) {
          return 0, ApiError(r.err.value);
        }
        available := Available(r.obj);
      }
      err := NoError;
    }

    // detectService
    method DetectService(kind: InfraKind) returns (healthy: bool, complaint: Complaint)
      ensures healthy <==> Known(kind) && ServiceKey(kind) in caches.services.objs
      ensures !healthy ==> complaint == if Known(kind) then ServiceMissing else InvalidKind
    {
      if !Known(kind) {
        return false, InvalidKind;
      }
      healthy := ServiceKey(kind) in caches.services.objs;
      complaint := ServiceMissing;
    }

    method UpdateInfra(infra: Object, available: int, faults: Faults) returns (err: Option<Error>)
      requires CachesOk(caches) && IsInfra(infra)
      modifies api
      ensures Finish(old(api.store), caches, UpdateStatus(infra, available), faults) ==
        Ending(api.store, if err.Some? then Failed(Api(err.value)) else Synced)
    {
      var status := infra.body.status.(available := available);
      var healthy, complaint := DetectService(infra.body.infraKind);
      if healthy && status.available > 0 {
        status := status.(state := Healthy);
      } else {
        status := status.(state := UnHealthy);
        if !healthy {
          status := status.(message := complaint);
        }
      }
      FinishStep(api.store, caches, UpdateStatus(infra, available), faults);
      var r := api.DoUpdate(Infrastructure, infra.(body := infra.body.(status := status)), faults(StatusCall));
      err := r.err;
    }
  }
}
