/**
 The user controller in the shape of its source: methods that call the API
 server one after the other and carry their results in variables.

 Each method is proved to do what the corresponding stretch of the step
 function UserSync.Advance does, so all that is proved about runs of Advance
 holds of the code written here.
 */
module UserController {
  import opened Options
  import opened KubeApi
  import opened Common
  import opened UserSync

  // A pointer result: None is nil.
  type Pointer = Option<Object>

  class Controller {
    const api: ApiServer
    var caches: Caches

    constructor (api: ApiServer, caches: Caches)
      ensures this.api == api && this.caches == caches
    {
      this.api := api;
      this.caches := caches;
    }

    method SyncHandler(ns: string, name: string, faults: Faults) returns (outcome: Outcome)
      requires CachesOk(caches)
      modifies api
      ensures Ending(api.store, outcome) == Sync(old(api.store), caches, ns, name, faults)
    {
      ghost var s0 := api.store;
      FinishStep(s0, caches, Begin(ns, name), faults);
      var userKey := Key(User, ns, name);
      if userKey !in caches.users.objs {
        return Skipped;
      }
      var user := caches.users.objs[userKey];
      assert Filed(caches.users, userKey, user);
      if user.name == "" {
        return Skipped;
      }

      var principal: Object;
      var err: Option<Error>;
      var logic := ToPrincipal(user);
      var principals := ByName(caches.principals, Principal, logic.name);
      if |principals| == 0 {
        principal, err := EnsurePrincipal(user, logic, faults);
        if err.Some? {
          return Failed(Api(err.value));
        }
      } else if |principals| > 1 {
        return Failed(NotUnique);
      } else {
        principal := caches.principals.objs[TheOnly(principals)];
      }
      assert Sync(s0, caches, ns, name, faults) == Finish(api.store, caches, AfterPrincipal(user, principal), faults);

      if !ControlledBy(principal, user) {
        return Failed(NotControlled);
      }
      var matches := MatchPrincipalID(user.body.principalIDs, principal.name);
      if !matches {
        principal, err := RefreshPrincipal(user, principal, faults);
        if err.Some? {
          return Failed(Api(err.value));
        }
      }
      outcome := SyncGrants(user, principal, faults);
    }

    // The rest of syncHandler, from the cluster role on.
    method SyncGrants(user: Object, principal: Object, faults: Faults) returns (outcome: Outcome)
      requires CachesOk(caches) && IsUser(user)
      modifies api
      ensures Ending(api.store, outcome) == Finish(old(api.store), caches, FindRole(user, principal), faults)
    {
      var err: Option<Error>;
      var clusterRole: Pointer;
      var clusterRoles := ByName(caches.roles, ClusterRole, user.name);
      FinishStep(api.store, caches, FindRole(user, principal), faults);
      if |clusterRoles| == 0 {
        clusterRole, err := GenerateClusterRole(user, principal, faults);
        if err.Some? {
          return Failed(Api(err.value));
        }
        if clusterRole.None? {
          return Panicked;
        }
      } else if |clusterRoles| > 1 {
        return Failed(NotUnique);
      } else {
        clusterRole := Some(caches.roles.objs[TheOnly(clusterRoles)]);
      }
      if !ControlledBy(clusterRole.value, user) {
        return Failed(NotControlled);
      }

      var clusterRoleBinding: Pointer;
      var clusterRoleBindings := ByName(caches.bindings, ClusterRoleBinding, user.name);
      FinishStep(api.store, caches, FindBinding(user, principal), faults);
      if |clusterRoleBindings| == 0 {
        clusterRoleBinding, err := GenerateClusterRoleBinding(user, principal, faults);
        if err.Some? {
          return Failed(Api(err.value));
        }
        if clusterRoleBinding.None? {
          return Panicked;
        }
      } else if |clusterRoleBindings| > 1 {
        return Failed(NotUnique);
      } else {
        clusterRoleBinding := Some(caches.bindings.objs[TheOnly(clusterRoleBindings)]);
      }
      if !ControlledBy(clusterRoleBinding.value, user) {
        return Failed(NotControlled);
      }

      err := RecordPrincipal(user, principal, faults);
      outcome := if err.Some? then Failed(Api(err.value)) else Synced;
    }

    // createPrincipal
    method EnsurePrincipal(user: Object, logic: Object, faults: Faults) returns (principal: Object, err: Option<Error>)
      requires CachesOk(caches) && IsUser(user) && logic == ToPrincipal(user)
      modifies api
      ensures Finish(old(api.store), caches, EnsureNamespace(user), faults) ==
        if err.Some? then Ending(api.store, Failed(Api(err.value)))
        else Finish(api.store, caches, AfterPrincipal(user, principal), faults)
    {
      FinishStep(api.store, caches, EnsureNamespace(user), faults);
      var r := api.DoCreate(Namespace, NamespaceObject(), faults(NamespaceCall));
      if r.err.None? || r.err == Some(AlreadyExists) {
        FinishStep(api.store, caches, CreatePrincipal(user), faults);
        var created := api.DoCreate(Principal, logic.(owner := Some(user.uid)), faults(PrincipalCreateCall));
        if created.err.Some? && created.err != Some(AlreadyExists) {
          return NO_OBJECT, created.err;
        }
        return created.obj, None;
      }
      return NO_OBJECT, r.err;
    }

    // updatePrincipal
    method RefreshPrincipal(user: Object, logic: Object, faults: Faults) returns (principal: Object, err: Option<Error>)
      requires CachesOk(caches) && IsUser(user)
      modifies api
      ensures Finish(old(api.store), caches, UpdatePrincipal(user, logic), faults) ==
        if err.Some? then Ending(api.store, Failed(Api(err.value)))
        else Finish(api.store, caches, FindRole(user, principal), faults)
    {
      FinishStep(api.store, caches, UpdatePrincipal(user, logic), faults);
      var r := api.DoUpdate(Principal, logic.(ns := user.ns, owner := Some(user.uid)), faults(PrincipalUpdateCall));
      if r.err.Some? && r.err != Some(AlreadyExists) {
        return NO_OBJECT, r.err;
      }
      return r.obj, None;
    }

    // generateClusterRole answers nil without an error when its Get succeeds.
    method GenerateClusterRole(user: Object, ghost principal: Object, faults: Faults)
      returns (role: Pointer, err: Option<Error>)
      requires CachesOk(caches) && IsUser(user)
      modifies api
      ensures Finish(old(api.store), caches, GetRole(user, principal), faults) ==
        if err.Some? then Ending(api.store, Failed(Api(err.value)))
        else if role.None? then Ending(api.store, Panicked)
        else Finish(api.store, caches, AfterRole(user, principal, role.value), faults)
    {
      FinishStep(api.store, caches, GetRole(user, principal), faults);
      var got := api.DoGet(Key(ClusterRole, "", user.name), faults(RoleGetCall));
      if got.err.Some? && got.err != Some(AlreadyExists) {
        FinishStep(api.store, caches, CreateRole(user, principal, got.err.value), faults);
        var r := api.DoCreate(ClusterRole, OwnedClusterObject(user), faults(RoleCreateCall));
        if r.err.None? || r.err == Some(AlreadyExists) {
          return Some(r.obj), None;
        }
      }
      return None, got.err;
    }

    // generateClusterRoleBinding
    method GenerateClusterRoleBinding(user: Object, ghost principal: Object, faults: Faults)
      returns (binding: Pointer, err: Option<Error>)
      requires CachesOk(caches) && IsUser(user)
      modifies api
      ensures Finish(old(api.store), caches, GetBinding(user, principal), faults) ==
        if err.Some? then Ending(api.store, Failed(Api(err.value)))
        else if binding.None? then Ending(api.store, Panicked)
        else Finish(api.store, caches, AfterBinding(user, principal, binding.value), faults)
    {
      FinishStep(api.store, caches, GetBinding(user, principal), faults);
      var got := api.DoGet(Key(ClusterRoleBinding, "", user.name), faults(BindingGetCall));
      if got.err.Some? && got.err != Some(AlreadyExists) {
        FinishStep(api.store, caches, CreateBinding(user, principal, got.err.value), faults);
        var r := api.DoCreate(ClusterRoleBinding, OwnedClusterObject(user), faults(BindingCreateCall));
        if r.err.None? || r.err == Some(AlreadyExists) {
          return Some(r.obj), None;
        }
      }
      return None, got.err;
    }

    // updateUser
    method RecordPrincipal(user: Object, principal: Object, faults: Faults) returns (err: Option<Error>)
      requires CachesOk(caches) && IsUser(user)
      modifies api
      ensures Finish(old(api.store), caches, UpdateUser(user, principal), faults) ==
        Ending(api.store, if err.Some? then Failed(Api(err.value)) else Synced)
    {
      FinishStep(api.store, caches, UpdateUser(user, principal), faults);
      var ids := user.body.principalIDs;
      var found := -1;
      for i := 0 to |ids|
        invariant found == -1 <==> principal.name !in ids[..i]
      {
        assert ids[..i + 1] == ids[..i] + [ids[i]];
        if ids[i] == principal.name {
          found := i;
        }
      }
      assert ids[..|ids|] == ids;
      if found == -1 {
        ids := ids + [principal.name];
      }
      var r := api.DoUpdate(User, user.(body := user.body.(principalIDs := ids)), faults(UserUpdateCall));
      err := r.err;
    }
  }
}
