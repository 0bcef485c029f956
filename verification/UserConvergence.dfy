/**
 What one undisturbed sync of a User achieves: exactly when it succeeds, what
 it leaves behind, when it changes nothing, when it panics, and that failed
 syncs never get in the way of a later one.
 */
module UserConvergence {
  import opened Options
  import opened KubeApi
  import opened Common
  import opened UserSync

  function FreshCaches(s: Store): Caches { Caches(s, s, s, s) }

  const NO_FAULTS: Faults := _ => NoFault

  function UserAt(s: Store, ns: string, name: string): Object
    requires Key(User, ns, name) in s.objs
  {
    s.objs[Key(User, ns, name)]
  }

  ghost predicate HasUser(s: Store, ns: string, name: string) {
    WellFormed(s) && Key(User, ns, name) in s.objs && name != ""
  }

  lemma UserFacts(s: Store, ns: string, name: string)
    requires HasUser(s, ns, name)
    ensures var u := UserAt(s, ns, name); IsUser(u) && u.ns == ns && u.name == name && 0 < u.rv
  {
    assert Filed(s, Key(User, ns, name), UserAt(s, ns, name));
  }

  // The principals bearing the user's local ID, in whatever namespace.
  function Namesakes(s: Store, u: Object): set<Key>
    requires IsUser(u)
  {
    ByName(s, Principal, LocalID(u))
  }

  predicate AbsentOrOwned(s: Store, k: Key, u: Object) { k in s.objs ==> ControlledBy(s.objs[k], u) }

  predicate PresentAndOwned(s: Store, k: Key, u: Object) { k in s.objs && ControlledBy(s.objs[k], u) }

  function RoleKey(u: Object): Key { Key(ClusterRole, "", u.name) }
  function BindingKey(u: Object): Key { Key(ClusterRoleBinding, "", u.name) }
  function PrincipalKey(u: Object): Key
    requires IsUser(u)
  {
    Key(Principal, u.ns, LocalID(u))
  }

  // No principal bears the ID, or one does: it is the user's, and it lies in the
  // user's namespace unless the user lists its ID already.
  predicate PrincipalReady(s: Store, u: Object)
    requires IsUser(u)
  {
    var found := Namesakes(s, u);
    || found == {}
    || (|found| == 1 && ControlledBy(s.objs[TheOnly(found)], u)
        && (LocalID(u) in u.body.principalIDs || TheOnly(found).ns == u.ns))
  }

  // What the user's objects must be like for a sync to succeed.
  predicate Ready(s: Store, u: Object)
    requires IsUser(u)
  {
    PrincipalReady(s, u) && AbsentOrOwned(s, RoleKey(u), u) && AbsentOrOwned(s, BindingKey(u), u)
  }

  // What a sync is for: the user owns its one principal, its role and its
  // binding, and lists its principal's ID.
  predicate Established(s: Store, u: Object)
    requires IsUser(u)
  {
    && |Namesakes(s, u)| == 1
    && ControlledBy(s.objs[TheOnly(Namesakes(s, u))], u)
    && PresentAndOwned(s, RoleKey(u), u)
    && PresentAndOwned(s, BindingKey(u), u)
    && LocalID(u) in u.body.principalIDs
  }

  // A principal that the sync had to create says what the user says, and the
  // namespace has been seen to first.
  ghost predicate Described(s: Store, t: Store, u: Object)
    requires IsUser(u)
  {
    Namesakes(s, u) == {} ==>
      && Key(Namespace, "", "kube-system") in t.objs
      && PrincipalKey(u) in t.objs && Says(t.objs[PrincipalKey(u)], u)
  }

  // t is s with nothing but objects under the given keys added.
  ghost predicate Adds(s: Store, t: Store, keys: set<Key>) {
    && WellFormed(t)
    && (forall k | k in s.objs :: k in t.objs && t.objs[k] == s.objs[k])
    && (forall k | k in t.objs :: k in s.objs || k in keys)
  }

  function NamespaceKey(): Key { Key(Namespace, "", USER_NAMESPACE) }

  // ---- The stages of a fault-free sync with caches equal to the store ------

  lemma ClusterObjectsByName(s: Store, kind: Kind, name: string)
    requires WellFormed(s) && ClusterScoped(kind)
    ensures ByName(s, kind, name) == if Key(kind, "", name) in s.objs then {Key(kind, "", name)} else {}
  {
    forall k | k in ByName(s, kind, name)
      ensures k == Key(kind, "", name)
    {
      assert Filed(s, k, s.objs[k]);
    }
  }

  lemma NamesakeIff(s: Store, u: Object, k: Key)
    requires IsUser(u)
    ensures k in Namesakes(s, u) <==> k in s.objs && k.kind == Principal && k.name == LocalID(u)
  {
  }

  // Ends before FindRole with the principal in hand exactly when PrincipalReady holds.
  lemma PrincipalStage(s: Store, ns: string, name: string) returns (t: Store, p: Object)
    requires HasUser(s, ns, name)
    ensures var u, c := UserAt(s, ns, name), FreshCaches(s);
            && IsUser(u)
            && (!PrincipalReady(s, u) ==> Sync(s, c, ns, name, NO_FAULTS).outcome.Failed?)
            && (PrincipalReady(s, u) ==>
                  && Sync(s, c, ns, name, NO_FAULTS) == Finish(t, c, FindRole(u, p), NO_FAULTS)
                  && p.name == LocalID(u)
                  && Adds(s, t, {NamespaceKey(), PrincipalKey(u)})
                  && Described(s, t, u)
                  && (if Namesakes(s, u) == {} then PresentAndOwned(t, PrincipalKey(u), u) else t == s))
  {
    var u, c := UserAt(s, ns, name), FreshCaches(s);
    UserFacts(s, ns, name);
    var w := Begin(ns, name);
    FinishStep(s, c, w, NO_FAULTS);
    var found := Namesakes(s, u);
    if found == {} {
      t, p := CreateStage(s, c, u);
    } else {
      t, p := s, u;
      if |found| == 1 {
        t, p := CachedStage(s, c, u);
      } else {
        assert |found| > 1;
      }
    }
  }

  lemma CreateStage(s: Store, c: Caches, u: Object) returns (t: Store, p: Object)
    requires WellFormed(s) && CachesOk(c) && IsUser(u) && Namesakes(s, u) == {}
    ensures Finish(s, c, EnsureNamespace(u), NO_FAULTS) == Finish(t, c, FindRole(u, p), NO_FAULTS)
    ensures p.name == LocalID(u)
    ensures Adds(s, t, {NamespaceKey(), PrincipalKey(u)})
    ensures PresentAndOwned(t, PrincipalKey(u), u) && Described(s, t, u)
  {
    FinishStep(s, c, EnsureNamespace(u), NO_FAULTS);
    CreateAdds(s, Namespace, NamespaceObject(), NoFault);
    var s1 := Create(s, Namespace, NamespaceObject(), NoFault).store;
    assert NamespaceKey() in s1.objs;
    NamesakeIff(s, u, PrincipalKey(u));
    t, p := FirstPrincipal(s1, c, u);
    AddsCompose(s, s1, t, {NamespaceKey()}, {PrincipalKey(u)});
    assert {NamespaceKey()} + {PrincipalKey(u)} == {NamespaceKey(), PrincipalKey(u)};
  }

  lemma FirstPrincipal(s: Store, c: Caches, u: Object) returns (t: Store, p: Object)
    requires WellFormed(s) && CachesOk(c) && IsUser(u) && PrincipalKey(u) !in s.objs
    ensures Adds(s, t, {PrincipalKey(u)}) && PresentAndOwned(t, PrincipalKey(u), u)
    ensures Says(t.objs[PrincipalKey(u)], u)
    ensures p == t.objs[PrincipalKey(u)] && p.name == LocalID(u)
    ensures Finish(s, c, CreatePrincipal(u), NO_FAULTS) == Finish(t, c, FindRole(u, p), NO_FAULTS)
  {
    CreateAdds(s, Principal, OwnedPrincipal(u), NoFault);
    FinishStep(s, c, CreatePrincipal(u), NO_FAULTS);
    var a := Create(s, Principal, OwnedPrincipal(u), NoFault);
    t, p := a.store, a.reply.obj;
    assert a.reply.err == None && ControlledBy(p, u);
    if p.name !in u.body.principalIDs {
      FinishStep(t, c, UpdatePrincipal(u, p), NO_FAULTS);
      assert Update(t, Principal, p.(ns := u.ns, owner := Some(u.uid)), NoFault) == Answer(t, Reply(p, None));
    }
  }

  lemma CachedStage(s: Store, c: Caches, u: Object) returns (t: Store, p: Object)
    requires WellFormed(s) && CachesOk(c) && IsUser(u) && |Namesakes(s, u)| == 1
    ensures var w := AfterPrincipal(u, s.objs[TheOnly(Namesakes(s, u))]);
            && t == s
            && (!PrincipalReady(s, u) ==> Finish(s, c, w, NO_FAULTS).outcome.Failed?)
            && (PrincipalReady(s, u) ==>
                  Finish(s, c, w, NO_FAULTS) == Finish(s, c, FindRole(u, p), NO_FAULTS) && p.name == LocalID(u))
  {
    var k := TheOnly(Namesakes(s, u));
    t, p := s, s.objs[k];
    assert k in Namesakes(s, u);
    assert Filed(s, k, p);
    if ControlledBy(p, u) && p.name !in u.body.principalIDs {
      var o := p.(ns := u.ns, owner := Some(u.uid));
      FinishStep(s, c, UpdatePrincipal(u, p), NO_FAULTS);
      if k.ns == u.ns {
        assert Update(s, Principal, o, NoFault) == Answer(s, Reply(p, None));
      } else {
        NamesakeIff(s, u, KeyOf(Principal, o));
      }
    }
  }

  // A role or a binding that is nowhere is created.
  lemma RoleCreated(t: Store, c: Caches, u: Object, p: Object) returns (t': Store)
    requires WellFormed(t) && CachesOk(c) && IsUser(u) && RoleKey(u) !in t.objs
    ensures Finish(t, c, GetRole(u, p), NO_FAULTS) == Finish(t', c, FindBinding(u, p), NO_FAULTS)
    ensures Adds(t, t', {RoleKey(u)}) && PresentAndOwned(t', RoleKey(u), u)
  {
    FinishStep(t, c, GetRole(u, p), NO_FAULTS);
    FinishStep(t, c, CreateRole(u, p, NotFound), NO_FAULTS);
    CreateEvolves(t, ClusterRole, OwnedClusterObject(u), NoFault);
    t' := Create(t, ClusterRole, OwnedClusterObject(u), NoFault).store;
  }

  lemma BindingCreated(t: Store, c: Caches, u: Object, p: Object) returns (t': Store)
    requires WellFormed(t) && CachesOk(c) && IsUser(u) && BindingKey(u) !in t.objs
    ensures Finish(t, c, GetBinding(u, p), NO_FAULTS) == Finish(t', c, UpdateUser(u, p), NO_FAULTS)
    ensures Adds(t, t', {BindingKey(u)}) && PresentAndOwned(t', BindingKey(u), u)
  {
    FinishStep(t, c, GetBinding(u, p), NO_FAULTS);
    FinishStep(t, c, CreateBinding(u, p, NotFound), NO_FAULTS);
    CreateEvolves(t, ClusterRoleBinding, OwnedClusterObject(u), NoFault);
    t' := Create(t, ClusterRoleBinding, OwnedClusterObject(u), NoFault).store;
  }

  // The role stage; t differs from the cached s only in other kinds.
  lemma RoleStage(s: Store, t: Store, c: Caches, u: Object, p: Object) returns (t': Store)
    requires WellFormed(s) && WellFormed(t) && CachesOk(c) && IsUser(u) && c.roles == s
    requires RoleKey(u) in t.objs <==> RoleKey(u) in s.objs
    ensures !AbsentOrOwned(s, RoleKey(u), u) ==> Finish(t, c, FindRole(u, p), NO_FAULTS).outcome.Failed?
    ensures AbsentOrOwned(s, RoleKey(u), u) ==>
      && Finish(t, c, FindRole(u, p), NO_FAULTS) == Finish(t', c, FindBinding(u, p), NO_FAULTS)
      && Adds(t, t', {RoleKey(u)}) && (RoleKey(u) !in s.objs ==> PresentAndOwned(t', RoleKey(u), u))
      && (RoleKey(u) in s.objs ==> t' == t)
  {
    ClusterObjectsByName(s, ClusterRole, u.name);
    FinishStep(t, c, FindRole(u, p), NO_FAULTS);
    t' := t;
    if RoleKey(u) !in s.objs {
      t' := RoleCreated(t, c, u, p);
    } else {
      assert TheOnly(ByName(s, ClusterRole, u.name)) == RoleKey(u);
    }
  }

  lemma BindingStage(s: Store, t: Store, c: Caches, u: Object, p: Object) returns (t': Store)
    requires WellFormed(s) && WellFormed(t) && CachesOk(c) && IsUser(u) && c.bindings == s
    requires BindingKey(u) in t.objs <==> BindingKey(u) in s.objs
    ensures !AbsentOrOwned(s, BindingKey(u), u) ==> Finish(t, c, FindBinding(u, p), NO_FAULTS).outcome.Failed?
    ensures AbsentOrOwned(s, BindingKey(u), u) ==>
      && Finish(t, c, FindBinding(u, p), NO_FAULTS) == Finish(t', c, UpdateUser(u, p), NO_FAULTS)
      && Adds(t, t', {BindingKey(u)}) && (BindingKey(u) !in s.objs ==> PresentAndOwned(t', BindingKey(u), u))
      && (BindingKey(u) in s.objs ==> t' == t)
  {
    ClusterObjectsByName(s, ClusterRoleBinding, u.name);
    FinishStep(t, c, FindBinding(u, p), NO_FAULTS);
    t' := t;
    if BindingKey(u) !in s.objs {
      t' := BindingCreated(t, c, u, p);
    } else {
      assert TheOnly(ByName(s, ClusterRoleBinding, u.name)) == BindingKey(u);
    }
  }

  // t' is t but for the user, whose ID list now holds the given ID.
  ghost predicate Credited(t: Store, t': Store, u: Object, id: string)
    requires IsUser(u)
  {
    && WellFormed(t')
    && t'.objs.Keys == t.objs.Keys
    && (forall k | k in t.objs && k != KeyOf(User, u) :: t'.objs[k] == t.objs[k])
    && KeyOf(User, u) in t'.objs
    && t'.objs[KeyOf(User, u)].(rv := u.rv) == u.(body := u.body.(principalIDs := WithID(u.body.principalIDs, id)))
    && (id in u.body.principalIDs ==> t' == t)
  }

  lemma UserStage(t: Store, c: Caches, u: Object, p: Object) returns (t': Store)
    requires WellFormed(t) && CachesOk(c) && IsUser(u) && KeyOf(User, u) in t.objs && t.objs[KeyOf(User, u)] == u
    ensures Finish(t, c, UpdateUser(u, p), NO_FAULTS) == Ending(t', Synced)
    ensures Credited(t, t', u, p.name)
  {
    FinishStep(t, c, UpdateUser(u, p), NO_FAULTS);
    UpdateCredits(t, u, p);
    t' := Update(t, User, WithPrincipal(u, p), NoFault).store;
  }

  lemma UpdateCredits(t: Store, u: Object, p: Object)
    requires WellFormed(t) && IsUser(u) && KeyOf(User, u) in t.objs && t.objs[KeyOf(User, u)] == u
    ensures var a := Update(t, User, WithPrincipal(u, p), NoFault);
            a.reply.err == None && Credited(t, a.store, u, p.name)
  {
    assert Filed(t, KeyOf(User, u), u);
    UpdateEvolves(t, User, WithPrincipal(u, p), NoFault);
  }

  // ---- Main results --------------------------------------------------------

  // Nothing but the user has changed, and only its own objects and the namespace are new.
  ghost predicate OthersUntouched(s: Store, t: Store, u: Object)
    requires IsUser(u)
  {
    && (forall k | k in s.objs && k != KeyOf(User, u) :: k in t.objs && t.objs[k] == s.objs[k])
    && (forall k | k in t.objs :: k in s.objs || k in {NamespaceKey(), PrincipalKey(u), RoleKey(u), BindingKey(u)})
  }

  // v is u with its local ID in its list, and that local ID is still its local ID.
  ghost predicate IDRecorded(u: Object, v: Object)
    requires IsUser(u)
  {
    && v.(rv := u.rv) == u.(body := u.body.(principalIDs := WithID(u.body.principalIDs, LocalID(u))))
    && LocalID(v) == LocalID(u) == LastLocal(v.body.principalIDs)
  }

  // What a successful sync leaves: the user's objects, the ID in its list,
  // and everything else as it was.
  ghost predicate Converged(s: Store, t: Store, ns: string, name: string)
    requires HasUser(s, ns, name)
  {
    && IsUser(UserAt(s, ns, name))
    && HasUser(t, ns, name)
    && IDRecorded(UserAt(s, ns, name), UserAt(t, ns, name))
    && Established(t, UserAt(t, ns, name))
    && Described(s, t, UserAt(s, ns, name))
    && OthersUntouched(s, t, UserAt(s, ns, name))
  }

  lemma PreparedConverges(s: Store, t: Store, c: Caches, ns: string, name: string, p: Object)
    requires HasUser(s, ns, name) && IsUser(UserAt(s, ns, name)) && CachesOk(c)
    requires Prepared(s, t, UserAt(s, ns, name)) && p.name == LocalID(UserAt(s, ns, name))
    ensures var e := Finish(t, c, UpdateUser(UserAt(s, ns, name), p), NO_FAULTS);
            e.outcome == Synced && Converged(s, e.store, ns, name)
  {
    UserFacts(s, ns, name);
    var t' := UserStage(t, c, UserAt(s, ns, name), p);
    CreditConverges(s, t, t', ns, name);
  }

  // A fault-free sync with fresh caches succeeds exactly when the user's objects
  // are Ready; then it establishes them all, and otherwise it fails.
  lemma SyncSucceedsIff(s: Store, ns: string, name: string)
    requires HasUser(s, ns, name)
    ensures var u, e := UserAt(s, ns, name), Sync(s, FreshCaches(s), ns, name, NO_FAULTS);
            && IsUser(u)
            && (e.outcome == Synced <==> Ready(s, u))
            && (e.outcome == Synced ==> Converged(s, e.store, ns, name))
            && (e.outcome != Synced ==> e.outcome.Failed?)
  {
    var u, c := UserAt(s, ns, name), FreshCaches(s);
    UserFacts(s, ns, name);
    var t1, p := PrincipalStage(s, ns, name);
    if PrincipalReady(s, u) {
      var t2 := RoleStage(s, t1, c, u, p);
      if AbsentOrOwned(s, RoleKey(u), u) {
        var t3 := BindingStage(s, t2, c, u, p);
        if AbsentOrOwned(s, BindingKey(u), u) {
          StagesPrepare(s, t1, t2, t3, u);
          PreparedConverges(s, t3, c, ns, name, p);
        }
      }
    }
  }

  lemma AddsCompose(s: Store, t: Store, t': Store, a: set<Key>, b: set<Key>)
    requires Adds(s, t, a) && Adds(t, t', b)
    ensures Adds(s, t', a + b)
  {
  }

  // After the principal stage the user has exactly one principal, and owns it.
  lemma OnePrincipal(s: Store, t: Store, u: Object)
    requires IsUser(u) && PrincipalReady(s, u)
    requires Adds(s, t, {NamespaceKey(), PrincipalKey(u), RoleKey(u), BindingKey(u)})
    requires Namesakes(s, u) == {} ==> PresentAndOwned(t, PrincipalKey(u), u)
    requires Namesakes(s, u) != {} ==> PrincipalKey(u) in t.objs ==> PrincipalKey(u) in s.objs
    ensures |Namesakes(t, u)| == 1 && ControlledBy(t.objs[TheOnly(Namesakes(t, u))], u)
  {
    var k := if Namesakes(s, u) == {} then PrincipalKey(u) else TheOnly(Namesakes(s, u));
    if Namesakes(s, u) != {} {
      assert k in Namesakes(s, u);
    }
    forall m
      ensures m in Namesakes(t, u) <==> m == k
    {
      NamesakeIff(s, u, m);
      NamesakeIff(t, u, m);
    }
    assert Namesakes(t, u) == {k};
    assert TheOnly(Namesakes(t, u)) == k;
  }

  // All that is missing from t is the ID in the user's list.
  ghost predicate Prepared(s: Store, t: Store, u: Object)
    requires IsUser(u)
  {
    && Adds(s, t, {NamespaceKey(), PrincipalKey(u), RoleKey(u), BindingKey(u)})
    && |Namesakes(t, u)| == 1 && ControlledBy(t.objs[TheOnly(Namesakes(t, u))], u)
    && PresentAndOwned(t, RoleKey(u), u)
    && PresentAndOwned(t, BindingKey(u), u)
    && Described(s, t, u)
  }

  lemma StagesPrepare(s: Store, t1: Store, t2: Store, t3: Store, u: Object)
    requires IsUser(u) && Ready(s, u)
    requires Adds(s, t1, {NamespaceKey(), PrincipalKey(u)})
    requires if Namesakes(s, u) == {} then PresentAndOwned(t1, PrincipalKey(u), u) else t1 == s
    requires Described(s, t1, u)
    requires Adds(t1, t2, {RoleKey(u)}) && (RoleKey(u) !in s.objs ==> PresentAndOwned(t2, RoleKey(u), u))
    requires Adds(t2, t3, {BindingKey(u)}) && (BindingKey(u) !in s.objs ==> PresentAndOwned(t3, BindingKey(u), u))
    ensures Prepared(s, t3, u)
  {
    AddsCompose(s, t1, t2, {NamespaceKey(), PrincipalKey(u)}, {RoleKey(u)});
    AddsCompose(s, t2, t3, {NamespaceKey(), PrincipalKey(u)} + {RoleKey(u)}, {BindingKey(u)});
    assert {NamespaceKey(), PrincipalKey(u)} + {RoleKey(u)} + {BindingKey(u)}
        == {NamespaceKey(), PrincipalKey(u), RoleKey(u), BindingKey(u)};
    OnePrincipal(s, t3, u);
  }

  lemma CreditLeavesOthers(s: Store, t: Store, t': Store, u: Object)
    requires IsUser(u) && KeyOf(User, u) in s.objs
    requires Prepared(s, t, u) && Credited(t, t', u, LocalID(u))
    ensures OthersUntouched(s, t', u)
  {
  }

  lemma CreditRecordsID(t: Store, t': Store, u: Object)
    requires IsUser(u) && KeyOf(User, u) in t.objs && Credited(t, t', u, LocalID(u))
    ensures IDRecorded(u, t'.objs[KeyOf(User, u)])
  {
    LocalIDFixpoint(u);
    assert t'.objs[KeyOf(User, u)].body == u.body.(principalIDs := WithID(u.body.principalIDs, LocalID(u)));
  }

  lemma CreditConverges(s: Store, t: Store, t': Store, ns: string, name: string)
    requires HasUser(s, ns, name) && IsUser(UserAt(s, ns, name))
    requires Prepared(s, t, UserAt(s, ns, name))
    requires Credited(t, t', UserAt(s, ns, name), LocalID(UserAt(s, ns, name)))
    ensures Converged(s, t', ns, name)
  {
    UserFacts(s, ns, name);
    var u := UserAt(s, ns, name);
    CreditRecordsID(t, t', u);
    CreditEstablishes(t, t', u);
    CreditLeavesOthers(s, t, t', u);
  }

  lemma CreditEstablishes(t: Store, t': Store, u: Object)
    requires IsUser(u) && KeyOf(User, u) in t.objs && Credited(t, t', u, LocalID(u))
    requires |Namesakes(t, u)| == 1 && ControlledBy(t.objs[TheOnly(Namesakes(t, u))], u)
    requires PresentAndOwned(t, RoleKey(u), u) && PresentAndOwned(t, BindingKey(u), u)
    ensures var v := t'.objs[KeyOf(User, u)]; IsUser(v) && Established(t', v)
  {
    var v := t'.objs[KeyOf(User, u)];
    LocalIDFixpoint(u);
    assert v.body == u.body.(principalIDs := WithID(u.body.principalIDs, LocalID(u)));
    assert LocalID(v) == LocalID(u);
    assert Namesakes(t', v) == Namesakes(t, u);
    assert TheOnly(Namesakes(t, u)) in Namesakes(t, u);
  }

  // A user whose objects are established stays as it is: the sync is a no-op.
  lemma EstablishedIsFixpoint(s: Store, ns: string, name: string)
    requires HasUser(s, ns, name) && IsUser(UserAt(s, ns, name)) && Established(s, UserAt(s, ns, name))
    ensures Sync(s, FreshCaches(s), ns, name, NO_FAULTS) == Ending(s, Synced)
  {
    var u, c := UserAt(s, ns, name), FreshCaches(s);
    UserFacts(s, ns, name);
    var t1, p := PrincipalStage(s, ns, name);
    assert Namesakes(s, u) != {};
    var t2 := RoleStage(s, t1, c, u, p);
    var t3 := BindingStage(s, t2, c, u, p);
    var t4 := UserStage(t3, c, u, p);
  }

  // The fixpoints of the sync are exactly the established users.
  lemma FixpointIffEstablished(s: Store, ns: string, name: string)
    requires HasUser(s, ns, name)
    ensures IsUser(UserAt(s, ns, name))
    ensures Sync(s, FreshCaches(s), ns, name, NO_FAULTS) == Ending(s, Synced) <==> Established(s, UserAt(s, ns, name))
  {
    SyncSucceedsIff(s, ns, name);
    if Established(s, UserAt(s, ns, name)) {
      EstablishedIsFixpoint(s, ns, name);
    }
  }

  // One successful sync is enough: the next one finds nothing to do.
  lemma SyncTwiceIsSyncOnce(s: Store, ns: string, name: string)
    requires HasUser(s, ns, name)
    ensures IsUser(UserAt(s, ns, name))
    ensures var e := Sync(s, FreshCaches(s), ns, name, NO_FAULTS);
            Ready(s, UserAt(s, ns, name)) ==>
              WellFormed(e.store) && Sync(e.store, FreshCaches(e.store), ns, name, NO_FAULTS) == e
  {
    SyncSucceedsIff(s, ns, name);
    if Ready(s, UserAt(s, ns, name)) {
      EstablishedIsFixpoint(Sync(s, FreshCaches(s), ns, name, NO_FAULTS).store, ns, name);
    }
  }

  // Roles are named after the user alone, so of two users of one name in
  // different namespaces one cannot be synced once the other is.
  lemma NamesakeUsersExclude(s: Store, ns: string, ns': string, name: string)
    requires HasUser(s, ns, name) && HasUser(s, ns', name)
    requires UserAt(s, ns, name).uid != UserAt(s, ns', name).uid
    requires IsUser(UserAt(s, ns, name)) && Established(s, UserAt(s, ns, name))
    ensures IsUser(UserAt(s, ns', name)) && !Established(s, UserAt(s, ns', name))
    ensures Sync(s, FreshCaches(s), ns', name, NO_FAULTS).outcome.Failed?
  {
    UserFacts(s, ns, name);
    UserFacts(s, ns', name);
    SyncSucceedsIff(s, ns', name);
  }

  // What PrincipalReady excludes beside foreign principals: the user's own one, in
  // another namespace, before the user lists its ID. The update looks for it in the
  // user's namespace.
  lemma MisplacedPrincipalFails(s: Store, ns: string, name: string, k: Key)
    requires HasUser(s, ns, name) && IsUser(UserAt(s, ns, name))
    requires Namesakes(s, UserAt(s, ns, name)) == {k} && ControlledBy(s.objs[k], UserAt(s, ns, name)) && k.ns != ns
    requires LocalID(UserAt(s, ns, name)) !in UserAt(s, ns, name).body.principalIDs
    ensures Sync(s, FreshCaches(s), ns, name, NO_FAULTS) == Ending(s, Failed(Api(NotFound)))
  {
    var u, c, p := UserAt(s, ns, name), FreshCaches(s), s.objs[k];
    UserFacts(s, ns, name);
    NamesakeIff(s, u, k);
    NamesakeIff(s, u, PrincipalKey(u));
    assert Filed(s, k, p);
    assert TheOnly(Namesakes(s, u)) == k;
    FinishStep(s, c, Begin(ns, name), NO_FAULTS);
    FinishStep(s, c, UpdatePrincipal(u, p), NO_FAULTS);
  }

  // ---- Failed syncs do no harm ----------------------------------------------

  // A worker that started from fresh caches and ran alone up to here.
  ghost predicate Alone(s: Store, w: Worker, ns: string, name: string) {
    && HasUser(s, ns, name)
    && var u := UserAt(s, ns, name);
       && IsUser(u)
       && Ready(s, u)
       && (w.Begin? ==> w == Begin(ns, name))
       && (!w.Begin? && !w.Finished? ==> w.user == u)
       && (w.EnsureNamespace? || w.CreatePrincipal? ==> Namesakes(s, u) == {})
       && (w.UpdatePrincipal? ==>
             && w.principal.name == LocalID(u) && Key(Principal, w.principal.ns, LocalID(u)) in s.objs
             && s.objs[Key(Principal, w.principal.ns, LocalID(u))] == w.principal && ControlledBy(w.principal, u))
       && (!w.Begin? && !w.EnsureNamespace? && !w.CreatePrincipal? && !w.UpdatePrincipal? && !w.Finished? ==>
             w.principal.name == LocalID(u))
  }

  // Objects of other kinds, or a first principal of the user's own, leave it Ready.
  lemma ReadyAdds(s: Store, t: Store, u: Object, k: Key)
    requires IsUser(u) && Ready(s, u) && Adds(s, t, {k})
    requires k in t.objs && k !in s.objs ==>
      || k.kind == Namespace
      || (k == PrincipalKey(u) && Namesakes(s, u) == {} && ControlledBy(t.objs[k], u))
      || ((k == RoleKey(u) || k == BindingKey(u)) && ControlledBy(t.objs[k], u))
    ensures Ready(t, u)
  {
    if k in t.objs && k !in s.objs && k == PrincipalKey(u) {
      forall m | m in Namesakes(t, u)
        ensures m == k
      {
        NamesakeIff(s, u, m);
      }
      assert k in Namesakes(t, u);
      assert Namesakes(t, u) == {k};
      assert TheOnly(Namesakes(t, u)) == k;
    } else {
      assert Namesakes(t, u) == Namesakes(s, u);
    }
  }

  lemma CreateAdds(s: Store, kind: Kind, o: Object, fault: Fault)
    requires WellFormed(s) && Fits(kind, o.body) && (ClusterScoped(kind) ==> o.ns == "")
    ensures var t, k := Create(s, kind, o, fault).store, KeyOf(kind, o);
            Adds(s, t, {k}) && (k in t.objs && k !in s.objs ==> t.objs[k].owner == o.owner)
  {
    CreateEvolves(s, kind, o, fault);
  }

  lemma AloneStart(s: Store, ns: string, name: string)
    requires HasUser(s, ns, name) && IsUser(UserAt(s, ns, name)) && Ready(s, UserAt(s, ns, name))
    ensures Alone(s, Start(FreshCaches(s), ns, name), ns, name)
  {
    UserFacts(s, ns, name);
    var found := Namesakes(s, UserAt(s, ns, name));
    if |found| == 1 {
      assert TheOnly(found) in found;
      assert Filed(s, TheOnly(found), s.objs[TheOnly(found)]);
    }
  }

  lemma AloneUpdate(s: Store, c: Caches, w: Worker, ns: string, name: string, fault: Fault)
    requires Alone(s, w, ns, name) && CachesOk(c) && HoldsUser(w) && w.UpdatePrincipal?
    ensures var p := Advance(s, c, w, fault); Alone(p.store, p.worker, ns, name)
  {
    var u, o := w.user, w.principal.(ns := w.user.ns, owner := Some(w.user.uid));
    UserFacts(s, ns, name);
    OwnPrincipalUntouched(s, u, w.principal);
    assert Update(s, Principal, o, fault).store == s;
    assert KeyOf(Principal, o) in s.objs ==> Filed(s, KeyOf(Principal, o), s.objs[KeyOf(Principal, o)]);
  }

  lemma AloneStep(s: Store, c: Caches, w: Worker, ns: string, name: string, fault: Fault)
    requires Alone(s, w, ns, name) && CachesOk(c) && HoldsUser(w) && !w.Finished?
    requires w.Begin? ==> c == FreshCaches(s)
    ensures var p := Advance(s, c, w, fault); Alone(p.store, p.worker, ns, name) && !p.worker.Begin?
  {
    UserFacts(s, ns, name);
    var u := UserAt(s, ns, name);
    var t := Advance(s, c, w, fault).store;
    match w
    case Begin(_, _) => AloneStart(s, ns, name);
    case EnsureNamespace(_) =>
      CreateAdds(s, Namespace, NamespaceObject(), fault);
      ReadyAdds(s, t, u, NamespaceKey());
    case CreatePrincipal(_) =>
      CreateAdds(s, Principal, OwnedPrincipal(u), fault);
      ReadyAdds(s, t, u, PrincipalKey(u));
    case UpdatePrincipal(_, principal) => AloneUpdate(s, c, w, ns, name, fault);
    case CreateRole(_, _, _) =>
      CreateAdds(s, ClusterRole, OwnedClusterObject(u), fault);
      ReadyAdds(s, t, u, RoleKey(u));
    case CreateBinding(_, _, _) =>
      CreateAdds(s, ClusterRoleBinding, OwnedClusterObject(u), fault);
      ReadyAdds(s, t, u, BindingKey(u));
    case UpdateUser(_, principal) =>
      CreditKeepsReady(s, u, principal, fault, ns, name);
    case _ =>
  }

  // The principal update of an owned principal writes nothing.
  lemma OwnPrincipalUntouched(s: Store, u: Object, principal: Object)
    requires WellFormed(s) && IsUser(u) && PrincipalReady(s, u) && ControlledBy(principal, u)
    requires KeyOf(Principal, principal) in s.objs && s.objs[KeyOf(Principal, principal)] == principal
    requires principal.name == LocalID(u)
    ensures Updating(s, Principal, principal.(ns := u.ns, owner := Some(u.uid))).store == s
  {
    assert Filed(s, KeyOf(Principal, principal), principal);
    assert KeyOf(Principal, principal) in Namesakes(s, u);
    if Key(Principal, u.ns, LocalID(u)) in s.objs {
      assert Key(Principal, u.ns, LocalID(u)) in Namesakes(s, u);
    }
  }

  lemma CreditKeepsReady(s: Store, u: Object, p: Object, fault: Fault, ns: string, name: string)
    requires HasUser(s, ns, name) && u == UserAt(s, ns, name) && IsUser(u) && Ready(s, u) && p.name == LocalID(u)
    ensures var t := Update(s, User, WithPrincipal(u, p), fault).store;
            HasUser(t, ns, name) && IsUser(UserAt(t, ns, name)) && Ready(t, UserAt(t, ns, name))
  {
    UserFacts(s, ns, name);
    if fault != Refused {
      UpdateCredits(s, u, p);
      CreditedIsReady(s, Update(s, User, WithPrincipal(u, p), NoFault).store, u);
    }
  }

  lemma CreditedIsReady(s: Store, t: Store, u: Object)
    requires IsUser(u) && KeyOf(User, u) in s.objs && Ready(s, u) && Credited(s, t, u, LocalID(u))
    ensures var v := t.objs[KeyOf(User, u)]; IsUser(v) && Ready(t, v)
  {
    CreditRecordsID(s, t, u);
    var v := t.objs[KeyOf(User, u)];
    assert Namesakes(t, v) == Namesakes(s, u);
    if |Namesakes(s, u)| == 1 {
      assert TheOnly(Namesakes(s, u)) in Namesakes(s, u);
    }
  }

  lemma {:induction false} FinishKeepsReady(s: Store, c: Caches, w: Worker, ns: string, name: string, faults: Faults)
    requires Alone(s, w, ns, name) && CachesOk(c) && HoldsUser(w)
    requires w.Begin? ==> c == FreshCaches(s)
    ensures var t := Finish(s, c, w, faults).store;
            HasUser(t, ns, name) && IsUser(UserAt(t, ns, name)) && Ready(t, UserAt(t, ns, name))
    decreases StepsLeft(w)
  {
    if !w.Finished? {
      var p := Advance(s, c, w, FaultAt(faults, w));
      AdvanceTerminates(s, c, w, FaultAt(faults, w));
      AloneStep(s, c, w, ns, name, FaultAt(faults, w));
      FinishKeepsReady(p.store, c, p.worker, ns, name, faults);
    }
  }

  // The store after a series of syncs, each with fresh caches and its own failures.
  ghost function Attempts(s: Store, ns: string, name: string, tries: seq<Faults>): Store
    requires WellFormed(s)
    decreases |tries|
  {
    if tries == [] then s
    else
      var t := Sync(s, FreshCaches(s), ns, name, tries[0]).store;
      if WellFormed(t) then Attempts(t, ns, name, tries[1..]) else t
  }

  // However many syncs have failed, and wherever, the next undisturbed one
  // converges if the first one could have.
  lemma {:induction false} ConvergesAfterFailures(s: Store, ns: string, name: string, tries: seq<Faults>)
    requires HasUser(s, ns, name) && IsUser(UserAt(s, ns, name)) && Ready(s, UserAt(s, ns, name))
    ensures var t := Attempts(s, ns, name, tries);
            && HasUser(t, ns, name)
            && var e := Sync(t, FreshCaches(t), ns, name, NO_FAULTS);
               e.outcome == Synced && Converged(t, e.store, ns, name)
    decreases |tries|
  {
    if tries == [] {
      SyncSucceedsIff(s, ns, name);
    } else {
      FinishKeepsReady(s, FreshCaches(s), Begin(ns, name), ns, name, tries[0]);
      ConvergesAfterFailures(Sync(s, FreshCaches(s), ns, name, tries[0]).store, ns, name, tries[1..]);
    }
  }

  // ---- The nil dereference ---------------------------------------------------

  // Whether a sync of u gets past the principal stage: no principal is cached and
  // the calls that make one go well, or the one cached is the user's and, unless its
  // ID is listed, the update of it goes well.
  predicate PrincipalPasses(s: Store, c: Caches, u: Object, faults: Faults)
    requires IsUser(u)
  {
    var found, listed := ByName(c.principals, Principal, LocalID(u)), LocalID(u) in u.body.principalIDs;
    if |found| == 0 then
      && faults(NamespaceCall) == NoFault && faults(PrincipalCreateCall) == NoFault
      && PrincipalKey(u) !in s.objs
      && (listed || faults(PrincipalUpdateCall) == NoFault)
    else
      && |found| == 1
      && ControlledBy(c.principals.objs[TheOnly(found)], u)
      && (listed || (
            && faults(PrincipalUpdateCall) == NoFault
            && PrincipalKey(u) in s.objs
            && s.objs[PrincipalKey(u)].rv == c.principals.objs[TheOnly(found)].rv))
  }

  // The cache shows no object of the name, but the server's Get finds one.
  predicate Missed(s: Store, cache: Store, kind: Kind, u: Object, get: Fault) {
    ByName(cache, kind, u.name) == {} && Key(kind, "", u.name) in s.objs && get == NoFault
  }

  // Whether a sync of u gets past the stage of its role or binding: the one cached
  // is the user's, or none is cached nor stored and its Create goes well.
  predicate GrantPasses(s: Store, cache: Store, kind: Kind, u: Object, create: Fault) {
    var found := ByName(cache, kind, u.name);
    if |found| == 0 then Key(kind, "", u.name) !in s.objs && create == NoFault
    else |found| == 1 && ControlledBy(cache.objs[TheOnly(found)], u)
  }

  ghost predicate SameGrants(s: Store, t: Store) {
    forall k: Key | k.kind == ClusterRole || k.kind == ClusterRoleBinding :: k in t.objs <==> k in s.objs
  }

  // The stages under any caches and failures: a stage that does not pass ends the
  // sync in a failure.
  lemma MakePrincipal(s: Store, c: Caches, u: Object, faults: Faults) returns (t: Store, p: Object)
    requires WellFormed(s) && CachesOk(c) && IsUser(u) && ByName(c.principals, Principal, LocalID(u)) == {}
    ensures var e := Finish(s, c, EnsureNamespace(u), faults);
            if PrincipalPasses(s, c, u, faults) then e == Finish(t, c, FindRole(u, p), faults) && SameGrants(s, t)
            else e.outcome.Failed?
  {
    t, p := s, u;
    FinishStep(s, c, EnsureNamespace(u), faults);
    if faults(NamespaceCall) == NoFault {
      var s1 := Create(s, Namespace, NamespaceObject(), NoFault).store;
      CreateEvolves(s, Namespace, NamespaceObject(), NoFault);
      FinishStep(s1, c, CreatePrincipal(u), faults);
      if faults(PrincipalCreateCall) == NoFault && PrincipalKey(u) !in s.objs {
        var a := Create(s1, Principal, OwnedPrincipal(u), NoFault);
        t, p := a.store, a.reply.obj;
        if LocalID(u) !in u.body.principalIDs {
          UpdateOwnPrincipal(t, c, u, p, faults);
        }
      }
    }
  }

  // The principal update, of a principal the server or a cache has handed out.
  lemma UpdateOwnPrincipal(s: Store, c: Caches, u: Object, p: Object, faults: Faults)
    requires CachesOk(c) && IsUser(u) && p.name == LocalID(u) && 0 < p.rv
    ensures var e, a := Finish(s, c, UpdatePrincipal(u, p), faults),
                        Updating(s, Principal, p.(ns := u.ns, owner := Some(u.uid)));
            && a.store.objs.Keys == s.objs.Keys
            && if && faults(PrincipalUpdateCall) == NoFault
                  && PrincipalKey(u) in s.objs && s.objs[PrincipalKey(u)].rv == p.rv
               then e == Finish(a.store, c, FindRole(u, a.reply.obj), faults)
               else e.outcome.Failed?
  {
    var o := p.(ns := u.ns, owner := Some(u.uid));
    var a := Updating(s, Principal, o);
    assert KeyOf(Principal, o) == PrincipalKey(u);
    UpdatingKeepsKeys(s, Principal, o);
    FinishStep(s, c, UpdatePrincipal(u, p), faults);
    assert Advance(s, c, UpdatePrincipal(u, p), faults(PrincipalUpdateCall)).worker ==
      if faults(PrincipalUpdateCall) == NoFault && a.reply.err == None then FindRole(u, a.reply.obj)
      else Finished(Failed(Api(if faults(PrincipalUpdateCall) == NoFault then a.reply.err.value else Transient)));
  }

  lemma UpdatingKeepsKeys(s: Store, kind: Kind, o: Object)
    requires 0 < o.rv
    ensures var a, k := Updating(s, kind, o), KeyOf(kind, o);
            && a.store.objs.Keys == s.objs.Keys
            && (a.reply.err == None <==> k in s.objs && s.objs[k].rv == o.rv)
            && a.reply.err != Some(AlreadyExists)
  {
  }

  lemma FindPrincipal(s: Store, c: Caches, ns: string, name: string, faults: Faults) returns (t: Store, p: Object)
    requires WellFormed(s) && CachesOk(c) && Key(User, ns, name) in c.users.objs && name != ""
    ensures var u, e := UserAt(c.users, ns, name), Sync(s, c, ns, name, faults);
            && IsUser(u)
            && if PrincipalPasses(s, c, u, faults) then e == Finish(t, c, FindRole(u, p), faults) && SameGrants(s, t)
               else e.outcome.Failed?
  {
    var u := UserAt(c.users, ns, name);
    assert Filed(c.users, Key(User, ns, name), u);
    FinishStep(s, c, Begin(ns, name), faults);
    var found := ByName(c.principals, Principal, LocalID(u));
    t, p := s, u;
    if |found| == 0 {
      t, p := MakePrincipal(s, c, u, faults);
    } else if |found| == 1 {
      var k := TheOnly(found);
      assert k in found;
      p := c.principals.objs[k];
      assert Filed(c.principals, k, p);
      if ControlledBy(p, u) && LocalID(u) !in u.body.principalIDs {
        UpdateOwnPrincipal(s, c, u, p, faults);
        var a := Updating(s, Principal, p.(ns := u.ns, owner := Some(u.uid)));
        t, p := a.store, a.reply.obj;
      }
    }
  }

  lemma FindRoleStage(s: Store, c: Caches, u: Object, p: Object, faults: Faults) returns (t: Store)
    requires CachesOk(c) && IsUser(u)
    ensures var e := Finish(s, c, FindRole(u, p), faults);
            if Missed(s, c.roles, ClusterRole, u, faults(RoleGetCall)) then e.outcome == Panicked
            else if GrantPasses(s, c.roles, ClusterRole, u, faults(RoleCreateCall))
            then e == Finish(t, c, FindBinding(u, p), faults) && (BindingKey(u) in t.objs <==> BindingKey(u) in s.objs)
            else e.outcome.Failed?
  {
    t := s;
    FinishStep(s, c, FindRole(u, p), faults);
    if |ByName(c.roles, ClusterRole, u.name)| == 0 {
      FinishStep(s, c, GetRole(u, p), faults);
      var got := Get(s, RoleKey(u), faults(RoleGetCall));
      if got.err.Some? {
        FinishStep(s, c, CreateRole(u, p, got.err.value), faults);
        t := Create(s, ClusterRole, OwnedClusterObject(u), faults(RoleCreateCall)).store;
      }
    }
  }

  lemma BindingFromServer(s: Store, c: Caches, u: Object, p: Object, faults: Faults)
    requires CachesOk(c) && IsUser(u)
    ensures Finish(s, c, GetBinding(u, p), faults).outcome == Panicked
       <==> BindingKey(u) in s.objs && faults(BindingGetCall) == NoFault
  {
    FinishStep(s, c, GetBinding(u, p), faults);
    var got := Get(s, BindingKey(u), faults(BindingGetCall));
    var next := Advance(s, c, GetBinding(u, p), faults(BindingGetCall));
    if got.err.Some? {
      assert next == Progress(s, CreateBinding(u, p, got.err.value));
      BindingCreateEnds(s, c, u, p, got.err.value, faults);
    } else {
      assert next == Progress(s, Finished(Panicked));
    }
  }

  lemma BindingCreateEnds(s: Store, c: Caches, u: Object, p: Object, getErr: Error, faults: Faults)
    requires CachesOk(c) && IsUser(u)
    ensures Finish(s, c, CreateBinding(u, p, getErr), faults).outcome != Panicked
  {
    FinishStep(s, c, CreateBinding(u, p, getErr), faults);
    var t := Create(s, ClusterRoleBinding, OwnedClusterObject(u), faults(BindingCreateCall)).store;
    UserUpdateEnds(t, c, u, p, faults);
  }

  lemma FindBindingStage(s: Store, c: Caches, u: Object, p: Object, faults: Faults)
    requires CachesOk(c) && IsUser(u)
    ensures Finish(s, c, FindBinding(u, p), faults).outcome == Panicked
       <==> Missed(s, c.bindings, ClusterRoleBinding, u, faults(BindingGetCall))
  {
    var found := ByName(c.bindings, ClusterRoleBinding, u.name);
    var next := Advance(s, c, FindBinding(u, p), NoFault);
    FinishStep(s, c, FindBinding(u, p), faults);
    if |found| == 0 {
      assert found == {} && next == Progress(s, GetBinding(u, p));
      BindingFromServer(s, c, u, p, faults);
    } else if |found| == 1 {
      assert next.store == s && (next.worker.Finished? || next.worker == UpdateUser(u, p));
      UserUpdateEnds(s, c, u, p, faults);
    }
  }

  lemma UserUpdateEnds(s: Store, c: Caches, u: Object, p: Object, faults: Faults)
    requires CachesOk(c) && IsUser(u)
    ensures Finish(s, c, UpdateUser(u, p), faults).outcome != Panicked
  {
    FinishStep(s, c, UpdateUser(u, p), faults);
  }

  // When a sync dereferences nil, from what the caches, the store and the calls
  // are before it starts: it passes the principal stage, and either the role is
  // missed, or the role stage passes too and the binding is missed.
  lemma SyncPanicsIff(s: Store, c: Caches, ns: string, name: string, faults: Faults)
    requires WellFormed(s) && CachesOk(c)
    ensures var k := Key(User, ns, name);
            k in c.users.objs ==> IsUser(c.users.objs[k])
    ensures Sync(s, c, ns, name, faults).outcome == Panicked <==> (
              var k := Key(User, ns, name);
              && k in c.users.objs && name != ""
              && var u := c.users.objs[k];
                 && PrincipalPasses(s, c, u, faults)
                 && (|| Missed(s, c.roles, ClusterRole, u, faults(RoleGetCall))
                     || (&& GrantPasses(s, c.roles, ClusterRole, u, faults(RoleCreateCall))
                         && Missed(s, c.bindings, ClusterRoleBinding, u, faults(BindingGetCall)))))
  {
    var k := Key(User, ns, name);
    FinishStep(s, c, Begin(ns, name), faults);
    if k in c.users.objs {
      var u := c.users.objs[k];
      assert Filed(c.users, k, u);
      if name != "" {
        var t, p := FindPrincipal(s, c, ns, name, faults);
        if PrincipalPasses(s, c, u, faults) {
          assert RoleKey(u) in t.objs <==> RoleKey(u) in s.objs;
          assert BindingKey(u) in t.objs <==> BindingKey(u) in s.objs;
          var t' := FindRoleStage(t, c, u, p, faults);
          FindBindingStage(t', c, u, p, faults);
        }
      }
    }
  }

  // So a sync whose role and binding caches equal the store never gets there.
  lemma FreshCachesNeverPanic(s: Store, c: Caches, ns: string, name: string, faults: Faults)
    requires CachesOk(c) && c.roles == s && c.bindings == s
    ensures Sync(s, c, ns, name, faults).outcome != Panicked
  {
    SyncPanicsIff(s, c, ns, name, faults);
    ClusterObjectsByName(s, ClusterRole, name);
    ClusterObjectsByName(s, ClusterRoleBinding, name);
  }

  // The way there: the sync that follows on a user's first one, while the role
  // cache still shows the store as it was before that.
  lemma StaleRoleCachePanics(s: Store, ns: string, name: string)
    requires HasUser(s, ns, name) && IsUser(UserAt(s, ns, name)) && Ready(s, UserAt(s, ns, name))
    requires RoleKey(UserAt(s, ns, name)) !in s.objs
    ensures var t := Sync(s, FreshCaches(s), ns, name, NO_FAULTS).store;
            WellFormed(t) && Sync(t, FreshCaches(t).(roles := s), ns, name, NO_FAULTS).outcome == Panicked
  {
    SyncSucceedsIff(s, ns, name);
    var t := Sync(s, FreshCaches(s), ns, name, NO_FAULTS).store;
    UserFacts(s, ns, name);
    UserFacts(t, ns, name);
    ClusterObjectsByName(s, ClusterRole, name);
    var v := UserAt(t, ns, name);
    SyncPanicsIff(t, FreshCaches(t).(roles := s), ns, name, NO_FAULTS);
    assert |ByName(t, Principal, LocalID(v))| == 1;
  }

  const NEW_USER := Object("kube-system", "ann", 1, 1, None, UserBody("ann", "", []))

  // For one, a user that is all there is.
  lemma NewUserPanics()
    ensures var s := Store(map[Key(User, "kube-system", "ann") := NEW_USER], 2, 2);
            var t := Sync(s, FreshCaches(s), "kube-system", "ann", NO_FAULTS).store;
            WellFormed(t) && Sync(t, FreshCaches(t).(roles := s), "kube-system", "ann", NO_FAULTS).outcome == Panicked
  {
    var s := Store(map[Key(User, "kube-system", "ann") := NEW_USER], 2, 2);
    assert Namesakes(s, NEW_USER) == {};
    StaleRoleCachePanics(s, "kube-system", "ann");
  }
}
