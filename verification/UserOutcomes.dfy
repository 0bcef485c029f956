/**
 How a sync of a User ends: the whole table of outcomes with fresh caches, when it
 has nothing to do, what a failed Create reports, and that it never writes a User
 that has changed since it was read.
 */
module UserOutcomes {
  import opened Options
  import opened KubeApi
  import opened Common
  import opened UserSync
  import opened UserConvergence

  // ---- Undisturbed, with fresh caches ------------------------------------------

  ghost predicate Foreign(s: Store, k: Key, u: Object) { k in s.objs && s.objs[k].owner != Some(u.uid) }

  ghost predicate SeveralPrincipals(s: Store, id: string) {
    exists k, m :: k in s.objs && m in s.objs && k != m && k.kind == Principal && m.kind == Principal
                && k.name == id && m.name == id
  }

  // Somebody else's objects in the way of the user's.
  ghost predicate InTheWay(s: Store, u: Object, id: string) {
    || (exists k :: Foreign(s, k, u) && k.kind == Principal && k.name == id)
    || Foreign(s, Key(ClusterRole, "", u.name), u)
    || Foreign(s, Key(ClusterRoleBinding, "", u.name), u)
  }

  // The user's own principal, unlisted and in another namespace.
  ghost predicate Misplaced(s: Store, u: Object, id: string)
    requires IsUser(u)
  {
    exists k :: k in s.objs && k.kind == Principal && k.name == id && k.ns != u.ns
             && s.objs[k].owner == Some(u.uid) && id !in u.body.principalIDs
  }

  // Several principals of the user's ID end the sync first, then one that is not the
  // user's, then the user's own one in a place the update does not look at, then a role
  // or a binding that is not the user's.
  lemma SyncOutcome(s: Store, ns: string, name: string)
    requires HasUser(s, ns, name)
    ensures var u, outcome := UserAt(s, ns, name), Sync(s, FreshCaches(s), ns, name, NO_FAULTS).outcome;
            && IsUser(u)
            && (outcome == Synced <==>
                  !SeveralPrincipals(s, LocalID(u)) && !Misplaced(s, u, LocalID(u)) && !InTheWay(s, u, LocalID(u)))
            && (outcome == Failed(NotUnique) <==> SeveralPrincipals(s, LocalID(u)))
            && (outcome == Failed(Api(NotFound)) <==>
                  !SeveralPrincipals(s, LocalID(u)) && Misplaced(s, u, LocalID(u)))
            && (outcome == Failed(NotControlled) <==>
                  && !SeveralPrincipals(s, LocalID(u)) && !Misplaced(s, u, LocalID(u))
                  && InTheWay(s, u, LocalID(u)))
  {
    var u := UserAt(s, ns, name);
    UserFacts(s, ns, name);
    PrincipalCases(s, u);
    if SeveralPrincipals(s, LocalID(u)) {
      SeveralEndIt(s, ns, name);
    } else if Misplaced(s, u, LocalID(u)) {
      MisplacedEndsIt(s, ns, name);
    } else if InTheWay(s, u, LocalID(u)) {
      OthersEndIt(s, ns, name);
    } else {
      SyncSucceedsIff(s, ns, name);
    }
  }

  lemma SeveralEndIt(s: Store, ns: string, name: string)
    requires HasUser(s, ns, name) && IsUser(UserAt(s, ns, name)) && |Namesakes(s, UserAt(s, ns, name))| > 1
    ensures Sync(s, FreshCaches(s), ns, name, NO_FAULTS).outcome == Failed(NotUnique)
  {
    UserFacts(s, ns, name);
    FinishStep(s, FreshCaches(s), Begin(ns, name), NO_FAULTS);
  }

  lemma MisplacedEndsIt(s: Store, ns: string, name: string)
    requires HasUser(s, ns, name) && IsUser(UserAt(s, ns, name)) && |Namesakes(s, UserAt(s, ns, name))| <= 1
    requires Misplaced(s, UserAt(s, ns, name), LocalID(UserAt(s, ns, name)))
    ensures Sync(s, FreshCaches(s), ns, name, NO_FAULTS).outcome == Failed(Api(NotFound))
  {
    var u := UserAt(s, ns, name);
    UserFacts(s, ns, name);
    PrincipalCases(s, u);
    var k :| k in s.objs && k.kind == Principal && k.name == LocalID(u) && k.ns != ns
          && s.objs[k].owner == Some(u.uid) && LocalID(u) !in u.body.principalIDs;
    NamesakeIff(s, u, k);
    MisplacedPrincipalFails(s, ns, name, k);
  }

  // The cases of PrincipalReady.
  lemma PrincipalCases(s: Store, u: Object)
    requires IsUser(u)
    ensures SeveralPrincipals(s, LocalID(u)) <==> |Namesakes(s, u)| > 1
    ensures !SeveralPrincipals(s, LocalID(u)) && Namesakes(s, u) != {} ==>
              exists k :: Namesakes(s, u) == {k} && TheOnly(Namesakes(s, u)) == k
    ensures PrincipalReady(s, u) <==>
              && !SeveralPrincipals(s, LocalID(u)) && !Misplaced(s, u, LocalID(u))
              && !exists k :: Foreign(s, k, u) && k.kind == Principal && k.name == LocalID(u)
  {
    var found := Namesakes(s, u);
    forall k
      ensures k in found <==> k in s.objs && k.kind == Principal && k.name == LocalID(u)
    {
      NamesakeIff(s, u, k);
    }
    if k :| k in found {
      if exists m :: m in found && m != k {
        var m :| m in found && m != k;
        assert {k, m} <= found;
        SubsetSize({k, m}, found);
      } else {
        assert found == {k};
      }
    }
  }

  lemma SubsetSize<T>(a: set<T>, b: set<T>)
    requires a <= b
    ensures |a| <= |b|
  {
    assert b == a + (b - a);
  }

  // What is not the user's ends the sync wherever it is met.
  lemma OthersEndIt(s: Store, ns: string, name: string)
    requires HasUser(s, ns, name) && IsUser(UserAt(s, ns, name))
    requires InTheWay(s, UserAt(s, ns, name), LocalID(UserAt(s, ns, name)))
    requires |Namesakes(s, UserAt(s, ns, name))| <= 1
    requires !Misplaced(s, UserAt(s, ns, name), LocalID(UserAt(s, ns, name)))
    ensures Sync(s, FreshCaches(s), ns, name, NO_FAULTS).outcome == Failed(NotControlled)
  {
    var u, c := UserAt(s, ns, name), FreshCaches(s);
    PrincipalCases(s, u);
    if PrincipalReady(s, u) {
      var t, p := PrincipalStage(s, ns, name);
      ForeignGrantEnds(s, t, c, u, p);
    } else {
      UserFacts(s, ns, name);
      FinishStep(s, c, Begin(ns, name), NO_FAULTS);
    }
  }

  lemma ForeignGrantEnds(s: Store, t: Store, c: Caches, u: Object, p: Object)
    requires WellFormed(s) && WellFormed(t) && CachesOk(c) && IsUser(u) && c.roles == s && c.bindings == s
    requires RoleKey(u) in t.objs <==> RoleKey(u) in s.objs
    requires BindingKey(u) in t.objs <==> BindingKey(u) in s.objs
    requires Foreign(s, RoleKey(u), u) || Foreign(s, BindingKey(u), u)
    ensures Finish(t, c, FindRole(u, p), NO_FAULTS).outcome == Failed(NotControlled)
  {
    if Foreign(s, RoleKey(u), u) {
      ForeignRoleEnds(s, t, c, u, p);
    } else {
      var t' := RoleStage(s, t, c, u, p);
      ForeignBindingEnds(s, t', c, u, p);
    }
  }

  lemma ForeignRoleEnds(s: Store, t: Store, c: Caches, u: Object, p: Object)
    requires WellFormed(s) && CachesOk(c) && IsUser(u) && c.roles == s && Foreign(s, RoleKey(u), u)
    ensures Finish(t, c, FindRole(u, p), NO_FAULTS).outcome == Failed(NotControlled)
  {
    ClusterObjectsByName(s, ClusterRole, u.name);
    FinishStep(t, c, FindRole(u, p), NO_FAULTS);
    assert TheOnly(ByName(s, ClusterRole, u.name)) == RoleKey(u);
  }

  lemma ForeignBindingEnds(s: Store, t: Store, c: Caches, u: Object, p: Object)
    requires WellFormed(s) && CachesOk(c) && IsUser(u) && c.bindings == s && Foreign(s, BindingKey(u), u)
    ensures Finish(t, c, FindBinding(u, p), NO_FAULTS).outcome == Failed(NotControlled)
  {
    ClusterObjectsByName(s, ClusterRoleBinding, u.name);
    FinishStep(t, c, FindBinding(u, p), NO_FAULTS);
    assert TheOnly(ByName(s, ClusterRoleBinding, u.name)) == BindingKey(u);
  }

  // ---- Nothing to do -------------------------------------------------------------

  // A sync is skipped exactly when the cache does not hold the user, and then nothing
  // is written, whatever the other caches and the server hold.
  lemma SkippedIff(s: Store, c: Caches, ns: string, name: string, faults: Faults)
    requires CachesOk(c)
    ensures var e := Sync(s, c, ns, name, faults);
            && (e.outcome == Skipped <==> Key(User, ns, name) !in c.users.objs || name == "")
            && (e.outcome == Skipped ==> e.store == s)
  {
    var k := Key(User, ns, name);
    FinishStep(s, c, Begin(ns, name), faults);
    if k in c.users.objs && name != "" {
      assert Filed(c.users, k, c.users.objs[k]);
      OnlyTheStartSkips(s, c, Start(c, ns, name), faults);
    }
  }

  lemma {:induction false} OnlyTheStartSkips(s: Store, c: Caches, w: Worker, faults: Faults)
    requires CachesOk(c) && HoldsUser(w) && !w.Begin? && w != Finished(Skipped)
    ensures Finish(s, c, w, faults).outcome != Skipped
    decreases StepsLeft(w)
  {
    if !w.Finished? {
      var p := Advance(s, c, w, FaultAt(faults, w));
      AdvanceTerminates(s, c, w, FaultAt(faults, w));
      OnlyTheStartSkips(p.store, c, p.worker, faults);
    }
  }

  // ---- Changed since it was read ---------------------------------------------------

  // The User under the key is not, or no longer, the version that w works for.
  ghost predicate Outdated(s: Store, w: Worker) {
    !w.Begin? && !w.Finished? ==>
      && IsUser(w.user) && 0 < w.user.rv
      && (KeyOf(User, w.user) in s.objs ==> s.objs[KeyOf(User, w.user)].rv != w.user.rv)
  }

  // A sync of a cached user that has since been changed or deleted does not succeed,
  // and neither writes the User nor brings it back.
  lemma OutdatedUserUntouched(s: Store, c: Caches, ns: string, name: string, faults: Faults)
    requires CachesOk(c) && Key(User, ns, name) in c.users.objs
    requires var k := Key(User, ns, name); k in s.objs ==> s.objs[k].rv != c.users.objs[k].rv
    ensures var k, e := Key(User, ns, name), Sync(s, c, ns, name, faults);
            && e.outcome != Synced
            && (k in e.store.objs <==> k in s.objs)
            && (k in s.objs ==> e.store.objs[k] == s.objs[k])
  {
    var k := Key(User, ns, name);
    assert Filed(c.users, k, c.users.objs[k]);
    FinishStep(s, c, Begin(ns, name), faults);
    OutdatedEnds(s, c, Start(c, ns, name), k, faults);
  }

  lemma {:induction false} OutdatedEnds(s: Store, c: Caches, w: Worker, k: Key, faults: Faults)
    requires CachesOk(c) && HoldsUser(w) && !w.Begin? && w != Finished(Synced) && Outdated(s, w)
    requires k.kind == User && (!w.Finished? ==> k == KeyOf(User, w.user))
    ensures var e := Finish(s, c, w, faults);
            && e.outcome != Synced
            && (k in e.store.objs <==> k in s.objs)
            && (k in s.objs ==> e.store.objs[k] == s.objs[k])
    decreases StepsLeft(w)
  {
    if !w.Finished? {
      var p := Advance(s, c, w, FaultAt(faults, w));
      AdvanceTerminates(s, c, w, FaultAt(faults, w));
      OutdatedStep(s, c, w, k, FaultAt(faults, w));
      OutdatedEnds(p.store, c, p.worker, k, faults);
    }
  }

  lemma OutdatedStep(s: Store, c: Caches, w: Worker, k: Key, fault: Fault)
    requires CachesOk(c) && HoldsUser(w) && !w.Begin? && !w.Finished? && Outdated(s, w) && k == KeyOf(User, w.user)
    ensures var p := Advance(s, c, w, fault);
            && (k in p.store.objs <==> k in s.objs)
            && (k in s.objs ==> p.store.objs[k] == s.objs[k])
            && (if p.worker.Finished? then p.worker != Finished(Synced)
                else !p.worker.Begin? && p.worker.user == w.user)
  {
  }

  // Its last call is told of a conflict, or that the User is gone.
  lemma OutdatedUpdateFails(s: Store, c: Caches, w: Worker)
    requires CachesOk(c) && HoldsUser(w) && w.UpdateUser? && Outdated(s, w)
    ensures Advance(s, c, w, NoFault) ==
            Progress(s, Finished(Failed(Api(if KeyOf(User, w.user) in s.objs then Conflict else NotFound))))
  {
  }

  // ---- What fails is reported ----------------------------------------------------------

  // A call that fails, as it is or in its answer, ends the sync, but for the Gets and
  // Creates of the role and the binding.
  lemma FailedCallEndsIt(s: Store, c: Caches, w: Worker, fault: Fault)
    requires CachesOk(c) && HoldsUser(w) && fault != NoFault
    requires w.EnsureNamespace? || w.CreatePrincipal? || w.UpdatePrincipal? || w.UpdateUser?
    ensures Advance(s, c, w, fault).worker == Finished(Failed(Api(Transient)))
    ensures fault == Refused ==> Advance(s, c, w, fault).store == s
  {
  }

  // ---- What a failed grant reports ---------------------------------------------------

  // How a stage that finds its role or binding in no cache ends, when it does not
  // go on: what is stored under the name, its Get, its Create.
  function GrantFailure(stored: bool, get: Fault, create: Fault): Outcome {
    if stored && get == NoFault then Panicked
    else if create == NoFault then Failed(NotControlled)
    else if get == NoFault then Failed(Api(NotFound))
    else Failed(Api(Transient))
  }

  // A Create that fails is reported as its Get's answer: an object that is not there is
  // said to be not found, for the Create that could not make it. A failed Get is no
  // obstacle: what is not stored is created all the same, what is stored is then taken
  // for somebody else's, even the user's own.
  lemma UncachedRole(s: Store, c: Caches, u: Object, p: Object, faults: Faults)
    requires WellFormed(s) && CachesOk(c) && IsUser(u) && ByName(c.roles, ClusterRole, u.name) == {}
    ensures var stored := RoleKey(u) in s.objs;
            var e, create := Finish(s, c, FindRole(u, p), faults), faults(RoleCreateCall);
            var t := Create(s, ClusterRole, OwnedClusterObject(u), create).store;
            if !stored && create == NoFault then
              PresentAndOwned(t, RoleKey(u), u) && e == Finish(t, c, FindBinding(u, p), faults)
            else e.outcome == GrantFailure(stored, faults(RoleGetCall), create)
  {
    var got := Get(s, RoleKey(u), faults(RoleGetCall));
    RoleAsked(s, c, u, p, faults);
    if got.err.Some? {
      RoleAttempt(s, c, u, p, got.err.value, faults);
    }
  }

  lemma RoleAsked(s: Store, c: Caches, u: Object, p: Object, faults: Faults)
    requires CachesOk(c) && IsUser(u) && ByName(c.roles, ClusterRole, u.name) == {}
    ensures var e, got := Finish(s, c, FindRole(u, p), faults), Get(s, RoleKey(u), faults(RoleGetCall));
            e == if got.err.None? then Ending(s, Panicked)
                 else Finish(s, c, CreateRole(u, p, got.err.value), faults)
  {
    FinishStep(s, c, FindRole(u, p), faults);
    FinishStep(s, c, GetRole(u, p), faults);
  }

  lemma RoleAttempt(s: Store, c: Caches, u: Object, p: Object, getErr: Error, faults: Faults)
    requires CachesOk(c) && IsUser(u)
    ensures var e, create := Finish(s, c, CreateRole(u, p, getErr), faults), faults(RoleCreateCall);
            var t := Create(s, ClusterRole, OwnedClusterObject(u), create).store;
            if create != NoFault then e.outcome == Failed(Api(getErr))
            else if RoleKey(u) in s.objs then e.outcome == Failed(NotControlled)
            else PresentAndOwned(t, RoleKey(u), u) && e == Finish(t, c, FindBinding(u, p), faults)
  {
    FinishStep(s, c, CreateRole(u, p, getErr), faults);
  }

  lemma UncachedBinding(s: Store, c: Caches, u: Object, p: Object, faults: Faults)
    requires WellFormed(s) && CachesOk(c) && IsUser(u) && ByName(c.bindings, ClusterRoleBinding, u.name) == {}
    ensures var stored := BindingKey(u) in s.objs;
            var e, create := Finish(s, c, FindBinding(u, p), faults), faults(BindingCreateCall);
            var t := Create(s, ClusterRoleBinding, OwnedClusterObject(u), create).store;
            if !stored && create == NoFault then
              PresentAndOwned(t, BindingKey(u), u) && e == Finish(t, c, UpdateUser(u, p), faults)
            else e.outcome == GrantFailure(stored, faults(BindingGetCall), create)
  {
    var got := Get(s, BindingKey(u), faults(BindingGetCall));
    BindingAsked(s, c, u, p, faults);
    if got.err.Some? {
      BindingAttempt(s, c, u, p, got.err.value, faults);
    }
  }

  lemma BindingAsked(s: Store, c: Caches, u: Object, p: Object, faults: Faults)
    requires CachesOk(c) && IsUser(u) && ByName(c.bindings, ClusterRoleBinding, u.name) == {}
    ensures var e, got := Finish(s, c, FindBinding(u, p), faults), Get(s, BindingKey(u), faults(BindingGetCall));
            e == if got.err.None? then Ending(s, Panicked)
                 else Finish(s, c, CreateBinding(u, p, got.err.value), faults)
  {
    FinishStep(s, c, FindBinding(u, p), faults);
    FinishStep(s, c, GetBinding(u, p), faults);
  }

  lemma BindingAttempt(s: Store, c: Caches, u: Object, p: Object, getErr: Error, faults: Faults)
    requires CachesOk(c) && IsUser(u)
    ensures var e, create := Finish(s, c, CreateBinding(u, p, getErr), faults), faults(BindingCreateCall);
            var t := Create(s, ClusterRoleBinding, OwnedClusterObject(u), create).store;
            if create != NoFault then e.outcome == Failed(Api(getErr))
            else if BindingKey(u) in s.objs then e.outcome == Failed(NotControlled)
            else PresentAndOwned(t, BindingKey(u), u) && e == Finish(t, c, UpdateUser(u, p), faults)
  {
    FinishStep(s, c, CreateBinding(u, p, getErr), faults);
  }

  // ---- What a worker creates -----------------------------------------------------------

  // A principal that any step creates is named, placed, owned and described by the
  // worker's user.
  lemma NewPrincipalSays(s: Store, c: Caches, w: Worker, fault: Fault, k: Key)
    requires CachesOk(c) && HoldsUser(w) && k.kind == Principal
    requires k in Advance(s, c, w, fault).store.objs && k !in s.objs
    ensures w.CreatePrincipal? && k.ns == w.user.ns && k.name == LocalID(w.user)
    ensures var o := Advance(s, c, w, fault).store.objs[k]; o.owner == Some(w.user.uid) && Says(o, w.user)
  {
  }
}
