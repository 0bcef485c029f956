/**
 One sync of a User (controller/user_controller.go).

 A sync is a worker that advances from one API call to the next; Advance is one
 such step. UserController.SyncHandler is the sync in the shape of the source,
 proved to be the uninterrupted run of Advance. UserWorld lets any number of
 workers interleave their steps.
 */
module UserSync {
  import opened Options
  import opened KubeApi
  import opened Common

  const USER_NAMESPACE := "kube-system"

  // The snapshots of the store that the four informers hold.
  datatype Caches = Caches(users: Store, principals: Store, roles: Store, bindings: Store)

  datatype Reason = Api(error: Error) | NotUnique | NotControlled

  // Panicked is the nil dereference after generateClusterRole or
  // generateClusterRoleBinding answers (nil, nil).
  datatype Outcome = Skipped | Synced | Failed(reason: Reason) | Panicked

  // Where a worker stands: before the call named, with the locals it holds.
  datatype Worker =
    | Begin(ns: string, name: string)
    | EnsureNamespace(user: Object)
    | CreatePrincipal(user: Object)
    | UpdatePrincipal(user: Object, principal: Object)
    | FindRole(user: Object, principal: Object)
    | GetRole(user: Object, principal: Object)
    | CreateRole(user: Object, principal: Object, getErr: Error)
    | FindBinding(user: Object, principal: Object)
    | GetBinding(user: Object, principal: Object)
    | CreateBinding(user: Object, principal: Object, getErr: Error)
    | UpdateUser(user: Object, principal: Object)
    | Finished(outcome: Outcome)

  // ByIndex on an index function that yields the object's name.
  function ByName(cache: Store, kind: Kind, name: string): set<Key> {
    set k | k in cache.objs && k.kind == kind && k.name == name
  }

  function TheOnly(keys: set<Key>): (k: Key)
    requires |keys| == 1
    ensures keys == {k}
  {
    assert keys != {};
    var k :| k in keys;
    OnlyOne(keys, k);
    k
  }

  lemma OnlyOne<T>(s: set<T>, x: T)
    requires |s| == 1 && x in s
    ensures s == {x}
  {
    assert |s - {x}| == 0;
  }

  function NamespaceObject(): Object { Object("", USER_NAMESPACE, 0, 0, None, Plain) }

  function OwnedPrincipal(user: Object): Object
    requires IsUser(user)
  {
    ToPrincipal(user).(owner := Some(user.uid))
  }

  // The ClusterRole and the ClusterRoleBinding of a user bear its name.
  function OwnedClusterObject(user: Object): Object {
    Object("", user.name, 0, 0, Some(user.uid), Plain)
  }

  function WithPrincipal(user: Object, principal: Object): Object
    requires IsUser(user)
  {
    user.(body := user.body.(principalIDs := WithID(user.body.principalIDs, principal.name)))
  }

  // ---- The decisions between two calls ----------------------------------

  function AfterPrincipal(user: Object, principal: Object): Worker
    requires IsUser(user)
  {
    if !ControlledBy(principal, user) then Finished(Failed(NotControlled))
    else if principal.name in user.body.principalIDs then FindRole(user, principal)
    else UpdatePrincipal(user, principal)
  }

  function AfterRole(user: Object, principal: Object, role: Object): Worker {
    if !ControlledBy(role, user) then Finished(Failed(NotControlled)) else FindBinding(user, principal)
  }

  function AfterBinding(user: Object, principal: Object, binding: Object): Worker {
    if !ControlledBy(binding, user) then Finished(Failed(NotControlled)) else UpdateUser(user, principal)
  }

  function Start(caches: Caches, ns: string, name: string): Worker
    requires WellFormed(caches.users)
  {
    var k := Key(User, ns, name);
    if k !in caches.users.objs then Finished(Skipped)
    else
      var user := caches.users.objs[k];
      assert Filed(caches.users, k, user);
      if user.name == "" then Finished(Skipped)
      else
        var found := ByName(caches.principals, Principal, LocalID(user));
        if |found| == 0 then EnsureNamespace(user)
        else if |found| > 1 then Finished(Failed(NotUnique))
        else AfterPrincipal(user, caches.principals.objs[TheOnly(found)])
  }

  ghost predicate HoldsUser(w: Worker) {
    !w.Begin? && !w.Finished? ==> IsUser(w.user)
  }

  ghost predicate CachesOk(c: Caches) {
    WellFormed(c.users) && WellFormed(c.principals) && WellFormed(c.roles) && WellFormed(c.bindings)
  }

  datatype Progress = Progress(store: Store, worker: Worker)

  // One step of a worker: at most one API call, then the decisions that follow it.
  function Advance(s: Store, caches: Caches, w: Worker, fault: Fault): Progress
    requires CachesOk(caches) && HoldsUser(w)
  {
    match w
    case Begin(ns, name) =>
      Progress(s, Start(caches, ns, name))
    case EnsureNamespace(user) =>
      var a := Create(s, Namespace, NamespaceObject(), fault);
      Progress(a.store, if Tolerated(a.reply) then CreatePrincipal(user) else Finished(Failed(Api(a.reply.err.value))))
    case CreatePrincipal(user) =>
      var a := Create(s, Principal, OwnedPrincipal(user), fault);
      Progress(a.store,
               if Tolerated(a.reply) then AfterPrincipal(user, a.reply.obj)
               else Finished(Failed(Api(a.reply.err.value))))
    case UpdatePrincipal(user, principal) =>
      var a := Update(s, Principal, principal.(ns := user.ns, owner := Some(user.uid)), fault);
      Progress(a.store,
               if Tolerated(a.reply) then FindRole(user, a.reply.obj)
               else Finished(Failed(Api(a.reply.err.value))))
    case FindRole(user, principal) =>
      var found := ByName(caches.roles, ClusterRole, user.name);
      Progress(s,
               if |found| == 0 then GetRole(user, principal)
               else if |found| > 1 then Finished(Failed(NotUnique))
               else AfterRole(user, principal, caches.roles.objs[TheOnly(found)]))
    case GetRole(user, principal) =>
      var r := Get(s, Key(ClusterRole, "", user.name), fault);
      Progress(s, if r.err == None then Finished(Panicked) else CreateRole(user, principal, r.err.value))
    case CreateRole(user, principal, getErr) =>
      var a := Create(s, ClusterRole, OwnedClusterObject(user), fault);
      Progress(a.store,
               if Tolerated(a.reply) then AfterRole(user, principal, a.reply.obj)
               else Finished(Failed(Api(getErr))))
    case FindBinding(user, principal) =>
      var found := ByName(caches.bindings, ClusterRoleBinding, user.name);
      Progress(s,
               if |found| == 0 then GetBinding(user, principal)
               else if |found| > 1 then Finished(Failed(NotUnique))
               else AfterBinding(user, principal, caches.bindings.objs[TheOnly(found)]))
    case GetBinding(user, principal) =>
      var r := Get(s, Key(ClusterRoleBinding, "", user.name), fault);
      Progress(s, if r.err == None then Finished(Panicked) else CreateBinding(user, principal, r.err.value))
    case CreateBinding(user, principal, getErr) =>
      var a := Create(s, ClusterRoleBinding, OwnedClusterObject(user), fault);
      Progress(a.store,
               if Tolerated(a.reply) then AfterBinding(user, principal, a.reply.obj)
               else Finished(Failed(Api(getErr))))
    case UpdateUser(user, principal) =>
      var a := Update(s, User, WithPrincipal(user, principal), fault);
      Progress(a.store, if a.reply.err == None then Finished(Synced) else Finished(Failed(Api(a.reply.err.value))))
    case Finished(_) =>
      Progress(s, w)
  }

  // ---- A whole sync, undisturbed by others -------------------------------

  // The calls of one sync; none is made twice.
  datatype Call =
    | NamespaceCall | PrincipalCreateCall | PrincipalUpdateCall
    | RoleGetCall | RoleCreateCall | BindingGetCall | BindingCreateCall | UserUpdateCall

  type Faults = Call -> Fault

  function FaultAt(faults: Faults, w: Worker): Fault {
    match w
    case EnsureNamespace(_) => faults(NamespaceCall)
    case CreatePrincipal(_) => faults(PrincipalCreateCall)
    case UpdatePrincipal(_, _) => faults(PrincipalUpdateCall)
    case GetRole(_, _) => faults(RoleGetCall)
    case CreateRole(_, _, _) => faults(RoleCreateCall)
    case GetBinding(_, _) => faults(BindingGetCall)
    case CreateBinding(_, _, _) => faults(BindingCreateCall)
    case UpdateUser(_, _) => faults(UserUpdateCall)
    case _ => NoFault
  }

  function StepsLeft(w: Worker): nat {
    match w
    case Begin(_, _) => 11
    case EnsureNamespace(_) => 10
    case CreatePrincipal(_) => 9
    case UpdatePrincipal(_, _) => 8
    case FindRole(_, _) => 7
    case GetRole(_, _) => 6
    case CreateRole(_, _, _) => 5
    case FindBinding(_, _) => 4
    case GetBinding(_, _) => 3
    case CreateBinding(_, _, _) => 2
    case UpdateUser(_, _) => 1
    case Finished(_) => 0
  }

  lemma AdvanceTerminates(s: Store, caches: Caches, w: Worker, fault: Fault)
    requires CachesOk(caches) && HoldsUser(w)
    ensures HoldsUser(Advance(s, caches, w, fault).worker)
    ensures !w.Finished? ==> StepsLeft(Advance(s, caches, w, fault).worker) < StepsLeft(w)
  {
    if w.Begin? && Key(User, w.ns, w.name) in caches.users.objs {
      assert Filed(caches.users, Key(User, w.ns, w.name), caches.users.objs[Key(User, w.ns, w.name)]);
    }
  }

  datatype Ending = Ending(store: Store, outcome: Outcome)

  function Finish(s: Store, caches: Caches, w: Worker, faults: Faults): Ending
    requires CachesOk(caches) && HoldsUser(w)
    decreases StepsLeft(w)
  {
    if w.Finished? then Ending(s, w.outcome)
    else
      var p := Advance(s, caches, w, FaultAt(faults, w));
      AdvanceTerminates(s, caches, w, FaultAt(faults, w));
      Finish(p.store, caches, p.worker, faults)
  }

  function Sync(s: Store, caches: Caches, ns: string, name: string, faults: Faults): Ending
    requires CachesOk(caches)
  {
    Finish(s, caches, Begin(ns, name), faults)
  }

  // Unfolds one step of a run.
  lemma FinishStep(s: Store, caches: Caches, w: Worker, faults: Faults)
    requires CachesOk(caches) && HoldsUser(w) && !w.Finished?
    ensures var p := Advance(s, caches, w, FaultAt(faults, w));
            HoldsUser(p.worker) && Finish(s, caches, w, faults) == Finish(p.store, caches, p.worker, faults)
  {
    AdvanceTerminates(s, caches, w, FaultAt(faults, w));
  }
}
