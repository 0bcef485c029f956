/**
 Convergence from every reachable state: the workers never spoil what a later
 sync needs.

 A run starts where every user is Ready and no two users share a name or a local
 ID. Any number of workers then interleave, with arbitrarily stale caches, failing
 calls and deaths. Others may add users apart from those there are, and edit users
 as long as their local IDs stay; they leave principals, roles and bindings alone,
 and write beside these what they like. In every state of the run one undisturbed
 sync of any user succeeds.
 */
module UserProgress {
  import opened Options
  import opened KubeApi
  import opened Common
  import opened UserSync
  import opened UserWorld
  import opened UserConvergence

  // A user as it first was, and the principals that then bore its ID.
  datatype Origin = Origin(user: Object, principals: set<Key>)

  // Every user there has been.
  type Base = map<Key, Origin>

  // What a sync of one user touches is nothing to another.
  ghost predicate Apart(u: Object, v: Object) {
    IsUser(u) && IsUser(v) && u.name != v.name && LocalID(u) != LocalID(v)
  }

  ghost predicate AllReady(s: Store) {
    && WellFormed(s)
    && (forall k | k in s.objs && k.kind == User :: IsUser(s.objs[k]) && Ready(s, s.objs[k]))
    && (forall k, m | k in s.objs && m in s.objs && k.kind == User && m.kind == User && k != m ::
          Apart(s.objs[k], s.objs[m]))
  }

  ghost predicate OriginOk(k: Key, origin: Origin) {
    && k.kind == User && IsUser(origin.user) && KeyOf(User, origin.user) == k
    && (origin.principals == {} || exists m :: origin.principals == {m})
  }

  ghost predicate BaseOk(b: Base) {
    && (forall k | k in b :: OriginOk(k, b[k]))
    && (forall k, m | k in b && m in b && k != m :: Apart(b[k].user, b[m].user))
  }

  // v is a later state of the user. It may give up its ID only if its principal lies
  // where the sync would look for it.
  ghost predicate SameUser(origin: Origin, v: Object)
    requires IsUser(origin.user)
  {
    var u := origin.user;
    && IsUser(v)
    && v.uid == u.uid && v.ns == u.ns && v.name == u.name
    && LocalID(v) == LocalID(u)
    && (origin.principals <= {PrincipalKey(u)} || LocalID(u) in v.body.principalIDs)
  }

  // The user's principal is the one it started with or, if there was none, its own.
  ghost predicate PrincipalsKept(origin: Origin, s: Store)
    requires IsUser(origin.user)
  {
    var u := origin.user;
    && (forall m | m in Namesakes(s, u) ::
          && ControlledBy(s.objs[m], u)
          && (m in origin.principals || (m == PrincipalKey(u) && origin.principals == {})))
    && origin.principals <= Namesakes(s, u)
  }

  // What no run undoes for a user.
  ghost predicate Kept(origin: Origin, s: Store, k: Key)
    requires IsUser(origin.user)
  {
    && (k in s.objs ==> SameUser(origin, s.objs[k]))
    && PrincipalsKept(origin, s)
    && AbsentOrOwned(s, RoleKey(origin.user), origin.user)
    && AbsentOrOwned(s, BindingKey(origin.user), origin.user)
  }

  ghost predicate AllKept(b: Base, s: Store) {
    && (forall k | k in s.objs && k.kind == User :: k in b)
    && (forall k | k in b :: IsUser(b[k].user) && Kept(b[k], s, k))
  }

  ghost function BaseOf(s: Store): Base
    requires AllReady(s)
  {
    map k | k in s.objs && k.kind == User :: Origin(s.objs[k], Namesakes(s, s.objs[k]))
  }

  lemma OriginIsKept(s: Store, k: Key)
    requires AllReady(s) && k in s.objs && k.kind == User
    ensures var origin := Origin(s.objs[k], Namesakes(s, s.objs[k])); OriginOk(k, origin) && Kept(origin, s, k)
  {
    var u := s.objs[k];
    var found := Namesakes(s, u);
    assert Filed(s, k, u);
    if |found| == 1 {
      var m := TheOnly(found);
      assert m in found;
      assert m.ns == u.ns ==> m == PrincipalKey(u);
      assert found == {m};
    }
  }

  lemma BaseIsKept(s: Store)
    requires AllReady(s)
    ensures BaseOk(BaseOf(s)) && AllKept(BaseOf(s), s)
  {
    forall k | k in BaseOf(s)
      ensures OriginOk(k, BaseOf(s)[k]) && Kept(BaseOf(s)[k], s, k)
    {
      OriginIsKept(s, k);
    }
  }

  // Kept is Ready.
  lemma KeptIsReady(b: Base, s: Store, k: Key)
    requires BaseOk(b) && AllKept(b, s) && k in s.objs && k.kind == User
    ensures IsUser(s.objs[k]) && Ready(s, s.objs[k])
  {
    var origin, v := b[k], s.objs[k];
    assert OriginOk(k, origin) && Kept(origin, s, k);
    var u, found := origin.user, Namesakes(s, origin.user);
    assert Namesakes(s, v) == found;
    if found != {} {
      var m := if origin.principals == {} then PrincipalKey(u) else TheOnly(origin.principals);
      if origin.principals != {} {
        var x :| origin.principals == {x};
        assert m in origin.principals;
      }
      assert found == {m};
      assert TheOnly(found) == m;
      NamesakeIff(s, u, m);
    }
  }

  // ---- One step -------------------------------------------------------------

  // A worker's user is a state of a known one; a worker that is to create a principal
  // found none, and one that has a principal has the one of the user's ID.
  ghost predicate WorkerKept(b: Base, w: Worker) {
    !w.Begin? && !w.Finished? ==>
      && var k := KeyOf(User, w.user);
         k in b && IsUser(b[k].user) && SameUser(b[k], w.user)
         && (w.EnsureNamespace? || w.CreatePrincipal? ==> b[k].principals == {})
         && (!w.EnsureNamespace? && !w.CreatePrincipal? ==> w.principal.name == LocalID(w.user))
  }

  // The compare-and-swap facts a history gives a worker.
  ghost predicate SwapsSound(s: Store, w: Worker) {
    && (w.UpdateUser? ==>
          forall k | k in s.objs && s.objs[k].rv == w.user.rv :: s.objs[k] == w.user && k == KeyOf(User, w.user))
    && (w.UpdatePrincipal? ==> 0 < w.principal.rv && ControlledBy(w.principal, w.user))
    && (w.UpdatePrincipal? ==> forall k | k in s.objs && s.objs[k].rv == w.principal.rv ::
          s.objs[k] == w.principal && k == KeyOf(Principal, w.principal))
  }

  lemma StartKeepsWorker(b: Base, c: Caches, ns: string, name: string)
    requires CachesOk(c) && AllKept(b, c.users) && AllKept(b, c.principals)
    ensures WorkerKept(b, UserSync.Start(c, ns, name))
  {
    var k := Key(User, ns, name);
    if k in c.users.objs {
      var user := c.users.objs[k];
      assert Filed(c.users, k, user);
      assert Kept(b[k], c.users, k) && Kept(b[k], c.principals, k);
      var found := ByName(c.principals, Principal, LocalID(user));
      assert found == Namesakes(c.principals, b[k].user);
      if |found| == 1 {
        assert TheOnly(found) in found;
        assert Filed(c.principals, TheOnly(found), c.principals.objs[TheOnly(found)]);
      }
    }
  }

  lemma AdvanceKeepsWorker(b: Base, s: Store, c: Caches, w: Worker, fault: Fault)
    requires CachesOk(c) && HoldsUser(w) && WellFormed(s) && AllKept(b, c.users) && AllKept(b, c.principals)
    requires WorkerKept(b, w)
    ensures WorkerKept(b, Advance(s, c, w, fault).worker)
  {
    if w.Begin? {
      StartKeepsWorker(b, c, w.ns, w.name);
    } else {
      NamesAreKept(s, c, w, fault);
    }
  }

  lemma NamesAreKept(s: Store, c: Caches, w: Worker, fault: Fault)
    requires CachesOk(c) && HoldsUser(w) && WellFormed(s) && !w.Begin?
    ensures var next := Advance(s, c, w, fault).worker;
            next.Finished? || (
              && !next.Begin? && !next.EnsureNamespace? && next.user == w.user
              && (next.CreatePrincipal? ==> w.EnsureNamespace?)
              && (!next.CreatePrincipal? ==>
                    next.principal.name == if w.CreatePrincipal? then LocalID(w.user) else w.principal.name))
  {
    if w.UpdatePrincipal? {
      var k := KeyOf(Principal, w.principal.(ns := w.user.ns));
      assert k in s.objs ==> Filed(s, k, s.objs[k]);
    }
  }

  // A new object that is the user's own, or nobody's concern, leaves the user as it was.
  lemma AddKeeps(origin: Origin, s: Store, t: Store, k: Key, m: Key)
    requires IsUser(origin.user) && Kept(origin, s, m) && Adds(s, t, {k}) && k.kind != User && m.kind == User
    requires var u := origin.user;
             k in t.objs && k !in s.objs ==>
               && (k.kind == Principal && k.name == LocalID(u) ==>
                     k == PrincipalKey(u) && origin.principals == {} && ControlledBy(t.objs[k], u))
               && (k == RoleKey(u) || k == BindingKey(u) ==> ControlledBy(t.objs[k], u))
    ensures Kept(origin, t, m)
  {
    var u := origin.user;
    forall p | p in Namesakes(t, u)
      ensures ControlledBy(t.objs[p], u)
      ensures p in origin.principals || (p == PrincipalKey(u) && origin.principals == {})
    {
      if p in s.objs {
        assert p in Namesakes(s, u);
      }
    }
    assert Namesakes(s, u) <= Namesakes(t, u);
  }

  // What a worker creates is its user's own.
  lemma CreateKeeps(b: Base, s: Store, w: Worker, kind: Kind, o: Object, fault: Fault)
    requires BaseOk(b) && AllKept(b, s) && WellFormed(s) && WorkerKept(b, w) && HoldsUser(w)
    requires || (w.EnsureNamespace? && kind == Namespace && o == NamespaceObject())
             || (w.CreatePrincipal? && kind == Principal && o == OwnedPrincipal(w.user))
             || (w.CreateRole? && kind == ClusterRole && o == OwnedClusterObject(w.user))
             || (w.CreateBinding? && kind == ClusterRoleBinding && o == OwnedClusterObject(w.user))
    ensures AllKept(b, Create(s, kind, o, fault).store)
  {
    var t, k, q := Create(s, kind, o, fault).store, KeyOf(kind, o), KeyOf(User, w.user);
    CreateAdds(s, kind, o, fault);
    forall m | m in b
      ensures Kept(b[m], t, m)
    {
      assert OriginOk(m, b[m]) && OriginOk(q, b[q]);
      assert m != q ==> Apart(b[m].user, b[q].user);
      AddKeeps(b[m], s, t, k, m);
    }
  }

  // The user's own update adds an ID to its list.
  lemma CreditKeeps(b: Base, s: Store, user: Object, p: Object, fault: Fault)
    requires AllKept(b, s) && WellFormed(s)
    requires IsUser(user) && p.name == LocalID(user) && SwapsSound(s, UpdateUser(user, p))
    ensures AllKept(b, Update(s, User, WithPrincipal(user, p), fault).store)
  {
    var t, q := Update(s, User, WithPrincipal(user, p), fault).store, KeyOf(User, user);
    if t != s {
      assert q in s.objs && s.objs[q] == user;
      UpdateCredits(s, user, p);
      forall m | m in b
        ensures Kept(b[m], t, m)
      {
        CreditedKeeps(b[m], s, t, user, m);
      }
    }
  }

  lemma CreditedKeeps(origin: Origin, s: Store, t: Store, user: Object, m: Key)
    requires IsUser(origin.user) && Kept(origin, s, m) && IsUser(user)
    requires KeyOf(User, user) in s.objs && s.objs[KeyOf(User, user)] == user && Credited(s, t, user, LocalID(user))
    ensures Kept(origin, t, m)
  {
    CreditRecordsID(s, t, user);
    CreditLeavesPrincipals(origin, s, t, user);
    if m == KeyOf(User, user) {
      RecordedIsSame(origin, user, t.objs[m]);
    }
  }

  lemma RecordedIsSame(origin: Origin, u: Object, v: Object)
    requires IsUser(origin.user) && SameUser(origin, u) && IsUser(u) && IDRecorded(u, v)
    ensures SameUser(origin, v)
  {
  }

  lemma CreditLeavesPrincipals(origin: Origin, s: Store, t: Store, user: Object)
    requires IsUser(origin.user) && PrincipalsKept(origin, s) && IsUser(user)
    requires KeyOf(User, user) in s.objs && Credited(s, t, user, LocalID(user))
    ensures PrincipalsKept(origin, t)
  {
    assert Namesakes(t, origin.user) == Namesakes(s, origin.user);
  }

  // Its principal's update writes nothing: it is the user's already.
  lemma OwnPrincipalStays(s: Store, user: Object, principal: Object, fault: Fault)
    requires SwapsSound(s, UpdatePrincipal(user, principal))
    ensures Update(s, Principal, principal.(ns := user.ns, owner := Some(user.uid)), fault).store == s
  {
  }

  // The store after a worker's next call.
  ghost function Written(s: Store, w: Worker, fault: Fault): Store
    requires HoldsUser(w)
  {
    match w
    case EnsureNamespace(_) => Create(s, Namespace, NamespaceObject(), fault).store
    case CreatePrincipal(user) => Create(s, Principal, OwnedPrincipal(user), fault).store
    case UpdatePrincipal(user, p) => Update(s, Principal, p.(ns := user.ns, owner := Some(user.uid)), fault).store
    case CreateRole(user, _, _) => Create(s, ClusterRole, OwnedClusterObject(user), fault).store
    case CreateBinding(user, _, _) => Create(s, ClusterRoleBinding, OwnedClusterObject(user), fault).store
    case UpdateUser(user, p) => Update(s, User, WithPrincipal(user, p), fault).store
    case _ => s
  }

  lemma AdvanceWrites(s: Store, c: Caches, w: Worker, fault: Fault)
    requires WellFormed(s) && CachesOk(c) && HoldsUser(w)
    ensures Advance(s, c, w, fault).store == Written(s, w, fault)
  {
  }

  lemma AdvanceKeeps(b: Base, s: Store, c: Caches, w: Worker, fault: Fault)
    requires BaseOk(b) && AllKept(b, s) && WellFormed(s) && CachesOk(c) && HoldsUser(w)
    requires WorkerKept(b, w) && SwapsSound(s, w)
    ensures AllKept(b, Advance(s, c, w, fault).store)
  {
    AdvanceWrites(s, c, w, fault);
    match w
    case EnsureNamespace(user) => CreateKeeps(b, s, w, Namespace, NamespaceObject(), fault);
    case CreatePrincipal(user) => CreateKeeps(b, s, w, Principal, OwnedPrincipal(user), fault);
    case UpdatePrincipal(user, principal) => OwnPrincipalStays(s, user, principal, fault);
    case CreateRole(user, _, _) => CreateKeeps(b, s, w, ClusterRole, OwnedClusterObject(user), fault);
    case CreateBinding(user, _, _) => CreateKeeps(b, s, w, ClusterRoleBinding, OwnedClusterObject(user), fault);
    case UpdateUser(user, principal) => CreditKeeps(b, s, user, principal, fault);
    case _ =>
  }

  // ---- Whole runs -------------------------------------------------------------

  predicate IsGrant(kind: Kind) { kind == Principal || kind == ClusterRole || kind == ClusterRoleBinding }

  ghost predicate SameGrantObjects(s: Store, t: Store) {
    forall k: Key | IsGrant(k.kind) :: (k in t.objs <==> k in s.objs) && (k in s.objs ==> t.objs[k] == s.objs[k])
  }

  // v is u after somebody's edit. The local ID stays what it is, and stays listed if it
  // was, unless no principal bears it but one in the user's namespace.
  ghost predicate Edited(s: Store, u: Object, v: Object) {
    && IsUser(u) && IsUser(v)
    && v.uid == u.uid && v.ns == u.ns && v.name == u.name && LocalID(v) == LocalID(u)
    && (Namesakes(s, u) <= {PrincipalKey(u)} || LocalID(u) !in u.body.principalIDs
        || LocalID(u) in v.body.principalIDs)
  }

  // A user that somebody adds: apart from the others, and nothing of its names is stored.
  ghost predicate Newcomer(s: Store, u: Object) {
    && IsUser(u) && Namesakes(s, u) == {} && RoleKey(u) !in s.objs && BindingKey(u) !in s.objs
    && forall k | k in s.objs && k.kind == User :: Apart(u, s.objs[k])
  }

  // What others do to users.
  ghost predicate Civil(s: Store, t: Store) {
    && SameGrantObjects(s, t)
    && (forall k | k in s.objs && k.kind == User :: k in t.objs && Edited(s, s.objs[k], t.objs[k]))
    && (forall k | k in t.objs && k.kind == User && k !in s.objs :: Newcomer(s, t.objs[k]))
  }

  ghost predicate NoMeddling(acts: seq<Action>, run: seq<World>)
    requires |run| == |acts| + 1
  {
    forall i | 0 <= i < |acts| && acts[i].External? && 0 < |run[i].history| :: Civil(Now(run[i]), acts[i].store)
  }

  // Principals, roles and bindings are never deleted.
  ghost predicate GrantsRetained(h: seq<Store>) {
    forall i, k | 0 <= i < |h| && k in h[i].objs && IsGrant(k.kind) :: k in h[|h| - 1].objs
  }

  // In every state of a history all users known are kept.
  ghost predicate Carried(b: Base, h: seq<Store>) {
    && 0 < |h| && BaseOk(b)
    && (forall k | k in b :: k in Last(h).objs)
    && GrantsRetained(h)
    && (forall i | 0 <= i < |h| :: AllKept(b, h[i]))
  }

  ghost predicate ProgressInv(b: Base, w: World) {
    && Inv(w)
    && Carried(b, w.history)
    && (forall id | id in w.agents :: WorkerKept(b, w.agents[id].at))
  }

  lemma SwapsAreSound(h: seq<Store>, a: Agent)
    requires Coherent(h) && AgentOk(h, a)
    ensures SwapsSound(Last(h), a.at)
  {
    var s := Last(h);
    if a.at.UpdateUser? {
      forall k | k in s.objs && s.objs[k].rv == a.at.user.rv
        ensures s.objs[k] == a.at.user && k == KeyOf(User, a.at.user)
      {
        SwapHitsWhatWasRead(h, User, a.at.user, k);
      }
    } else if a.at.UpdatePrincipal? {
      SeenFits(h, Principal, a.at.principal);
      forall k | k in s.objs && s.objs[k].rv == a.at.principal.rv
        ensures s.objs[k] == a.at.principal && k == KeyOf(Principal, a.at.principal)
      {
        SwapHitsWhatWasRead(h, Principal, a.at.principal, k);
      }
    }
  }

  lemma CarriedOn(b: Base, h: seq<Store>, t: Store)
    requires 0 < |h| && BaseOk(b) && GrantsRetained(h) && forall i | 0 <= i < |h| :: AllKept(b, h[i])
    requires AllKept(b, t) && (forall k | k in b :: k in t.objs)
    requires forall k | k in Last(h).objs && IsGrant(k.kind) :: k in t.objs
    ensures Carried(b, h + [t])
  {
    GrantsStillRetained(h, t);
    assert Last(h + [t]) == t;
  }

  lemma CarriedFirst(b: Base, s: Store)
    requires BaseOk(b) && AllKept(b, s) && (forall k | k in b :: k in s.objs)
    ensures Carried(b, [s])
  {
    assert Last([s]) == s;
  }

  lemma GrantsStillRetained(h: seq<Store>, t: Store)
    requires 0 < |h| && GrantsRetained(h) && forall k | k in Last(h).objs && IsGrant(k.kind) :: k in t.objs
    ensures GrantsRetained(h + [t])
  {
    var g := h + [t];
    forall i, k | 0 <= i < |g| && k in g[i].objs && IsGrant(k.kind)
      ensures k in t.objs
    {
      if i < |h| {
        assert k in h[i].objs;
        assert k in Last(h).objs;
      }
    }
  }

  lemma ActProgresses(b: Base, w: World, id: nat, views: Views, fault: Fault)
    requires ProgressInv(b, w) && Typed(w) && id in w.agents && ValidViews(views, |w.history|)
    ensures var w' := ActOn(w, id, views, fault); AllKept(b, Now(w')) && WorkerKept(b, w'.agents[id].at)
  {
    var a, c := w.agents[id], CachesAt(w.history, views);
    SwapsAreSound(w.history, a);
    AdvanceKeeps(b, Now(w), c, a.at, fault);
    AdvanceKeepsWorker(b, Now(w), c, a.at, fault);
  }

  lemma ActKeepsObjects(w: World, id: nat, views: Views, fault: Fault)
    requires Inv(w) && Typed(w) && id in w.agents && ValidViews(views, |w.history|)
    ensures Keeps(Now(w), Now(ActOn(w, id, views, fault)))
  {
    ActEvolves(w.history, CachesAt(w.history, views), w.agents[id], fault);
  }

  // ---- What others do ----------------------------------------------------------

  lemma CivilKeeps(origin: Origin, s: Store, t: Store, k: Key)
    requires OriginOk(k, origin) && Kept(origin, s, k) && k in s.objs && Civil(s, t)
    ensures Kept(origin, t, k)
  {
    assert Namesakes(t, origin.user) == Namesakes(s, origin.user);
    assert Edited(s, s.objs[k], t.objs[k]);
    assert Namesakes(s, s.objs[k]) == Namesakes(s, origin.user);
  }

  // A newcomer was kept all along: nothing of its names has ever been stored.
  lemma NewcomerKept(h: seq<Store>, u: Object, i: nat)
    requires i < |h| && GrantsRetained(h) && Newcomer(Last(h), u)
    requires KeyOf(User, u) !in h[i].objs
    ensures Kept(Origin(u, {}), h[i], KeyOf(User, u))
  {
    forall m
      ensures m !in Namesakes(h[i], u)
    {
      NamesakeIff(h[i], u, m);
      NamesakeIff(Last(h), u, m);
    }
    assert RoleKey(u) !in h[i].objs && BindingKey(u) !in h[i].objs;
  }

  lemma NewcomerIsKept(s: Store, t: Store, k: Key)
    requires WellFormed(t) && Civil(s, t) && k in t.objs && k.kind == User && k !in s.objs
    ensures OriginOk(k, Origin(t.objs[k], {})) && Kept(Origin(t.objs[k], {}), t, k)
  {
    assert Filed(t, k, t.objs[k]);
    assert Newcomer(s, t.objs[k]);
    assert Namesakes(t, t.objs[k]) == Namesakes(s, t.objs[k]);
  }

  lemma NewcomersAreOne(s: Store, t: Store, k: Key, m: Key)
    requires Evolves(s, t) && k in t.objs && m in t.objs && k !in s.objs && m !in s.objs
    ensures k == m
  {
    assert !SameAt(s, t, k) && !SameAt(s, t, m);
  }

  lemma CivilKeepsAll(b: Base, s: Store, t: Store)
    requires BaseOk(b) && AllKept(b, s) && (forall k | k in b :: k in s.objs) && Civil(s, t)
    ensures forall k | k in b :: k in t.objs && IsUser(b[k].user) && Kept(b[k], t, k)
  {
    forall k | k in b
      ensures k in t.objs && Kept(b[k], t, k)
    {
      assert OriginOk(k, b[k]);
      CivilKeeps(b[k], s, t, k);
    }
  }

  lemma EditsCarry(b: Base, h: seq<Store>, t: Store)
    requires Carried(b, h) && Civil(Last(h), t)
    requires forall k: Key | k in t.objs && k.kind == User :: k in Last(h).objs
    ensures Carried(b, h + [t])
  {
    assert AllKept(b, h[|h| - 1]);
    CivilKeepsAll(b, Last(h), t);
    CarriedOn(b, h, t);
  }

  lemma NewcomerCarries(b: Base, h: seq<Store>, t: Store, k: Key)
    requires Carried(b, h) && WellFormed(t) && Evolves(Last(h), t) && Civil(Last(h), t)
    requires k in t.objs && k.kind == User && k !in Last(h).objs
    ensures k !in b && Carried(b[k := Origin(t.objs[k], {})], h + [t])
  {
    assert AllKept(b, h[|h| - 1]);
    CivilKeepsAll(b, Last(h), t);
    NewcomerJoins(b, h, t, k);
    CarriedOn(b[k := Origin(t.objs[k], {})], h, t);
  }

  lemma ExternalCarries(b: Base, h: seq<Store>, t: Store) returns (b': Base)
    requires Carried(b, h) && WellFormed(t) && Evolves(Last(h), t) && Civil(Last(h), t)
    ensures Carried(b', h + [t]) && forall k | k in b :: k in b' && b'[k] == b[k]
  {
    if k: Key :| k in t.objs && k.kind == User && k !in Last(h).objs {
      b' := b[k := Origin(t.objs[k], {})];
      NewcomerCarries(b, h, t, k);
    } else {
      b' := b;
      EditsCarry(b, h, t);
    }
  }

  lemma JoinedApart(b: Base, k: Key, origin: Origin)
    requires BaseOk(b) && OriginOk(k, origin)
    requires forall m | m in b :: Apart(origin.user, b[m].user) && Apart(b[m].user, origin.user)
    ensures BaseOk(b[k := origin])
  {
  }

  lemma NewcomerIsApart(b: Base, s: Store, t: Store, k: Key)
    requires BaseOk(b) && AllKept(b, s) && (forall m | m in b :: m in s.objs)
    requires WellFormed(t) && Civil(s, t) && k in t.objs && k.kind == User && k !in s.objs
    ensures BaseOk(b[k := Origin(t.objs[k], {})])
  {
    var u := t.objs[k];
    NewcomerIsKept(s, t, k);
    forall m | m in b
      ensures Apart(u, b[m].user) && Apart(b[m].user, u)
    {
      assert Kept(b[m], s, m) && OriginOk(m, b[m]);
      assert Apart(u, s.objs[m]);
    }
    JoinedApart(b, k, Origin(u, {}));
  }

  lemma NewcomerJoinsNow(b: Base, s: Store, t: Store, k: Key)
    requires WellFormed(t) && Evolves(s, t) && Civil(s, t) && AllKept(b, s)
    requires forall m | m in b :: IsUser(b[m].user) && Kept(b[m], t, m)
    requires k in t.objs && k.kind == User && k !in s.objs
    ensures AllKept(b[k := Origin(t.objs[k], {})], t)
  {
    NewcomerIsKept(s, t, k);
    forall m | m in t.objs && m.kind == User
      ensures m in b || m == k
    {
      if m !in s.objs {
        NewcomersAreOne(s, t, k, m);
      }
    }
  }

  lemma NewcomerJoins(b: Base, h: seq<Store>, t: Store, k: Key)
    requires Carried(b, h) && WellFormed(t) && Evolves(Last(h), t) && Civil(Last(h), t)
    requires forall m | m in b :: IsUser(b[m].user) && Kept(b[m], t, m)
    requires k in t.objs && k.kind == User && k !in Last(h).objs
    ensures var b' := b[k := Origin(t.objs[k], {})]; BaseOk(b') && AllKept(b', t)
    ensures k !in b && forall i | 0 <= i < |h| :: AllKept(b[k := Origin(t.objs[k], {})], h[i])
  {
    var s, u := Last(h), t.objs[k];
    assert AllKept(b, h[|h| - 1]);
    NewcomerIsApart(b, s, t, k);
    NewcomerJoinsNow(b, s, t, k);
    assert Filed(t, k, u) && Newcomer(s, u);
    forall i | 0 <= i < |h|
      ensures AllKept(b[k := Origin(u, {})], h[i])
    {
      assert AllKept(b, h[i]);
      NewcomerKept(h, u, i);
    }
  }

  lemma WorkersKnown(b: Base, b': Base, w: World)
    requires forall k | k in b :: k in b' && b'[k] == b[k]
    requires forall id | id in w.agents :: WorkerKept(b, w.agents[id].at)
    ensures forall id | id in w.agents :: WorkerKept(b', w.agents[id].at)
  {
  }

  lemma ExternalProgresses(b: Base, w: World, t: Store) returns (b': Base)
    requires ProgressInv(b, w) && WellFormed(t) && Evolves(Now(w), t) && Civil(Now(w), t)
    requires Inv(w.(history := w.history + [t]))
    ensures ProgressInv(b', w.(history := w.history + [t]))
  {
    b' := ExternalCarries(b, w.history, t);
    WorkersKnown(b, b', w);
  }

  lemma ActCarries(b: Base, w: World, id: nat, views: Views, fault: Fault)
    requires ProgressInv(b, w) && Typed(w) && id in w.agents && ValidViews(views, |w.history|)
    ensures Carried(b, ActOn(w, id, views, fault).history)
  {
    ActProgresses(b, w, id, views, fault);
    ActKeepsObjects(w, id, views, fault);
    CarriedOn(b, w.history, Now(ActOn(w, id, views, fault)));
  }

  lemma ActKeepsProgress(b: Base, w: World, id: nat, views: Views, fault: Fault)
    requires ProgressInv(b, w) && Typed(w) && id in w.agents && ValidViews(views, |w.history|)
    requires Inv(ActOn(w, id, views, fault))
    ensures ProgressInv(b, ActOn(w, id, views, fault))
  {
    ActCarries(b, w, id, views, fault);
    ActProgresses(b, w, id, views, fault);
  }

  lemma StepProgresses(b: Base, w: World, a: Action, w': World) returns (b': Base)
    requires ProgressInv(b, w) && Typed(w) && Step(w, a, w')
    requires a.External? ==> Civil(Now(w), a.store)
    ensures ProgressInv(b', w')
  {
    b' := b;
    StepKeepsInv(w, a, w');
    match a
    case Spawn(id, ns, name) =>
    case Die(id) =>
    case Act(id, views, fault) => ActKeepsProgress(b, w, id, views, fault);
    case External(t) => b' := ExternalProgresses(b, w, t);
  }

  lemma InitProgresses(w: World)
    requires Init(w) && Inv(w) && AllReady(Now(w))
    ensures ProgressInv(BaseOf(Now(w)), w)
  {
    var s := Now(w);
    BaseIsKept(s);
    CarriedFirst(BaseOf(s), s);
    assert w.history == [s];
  }

  lemma {:induction false} RunProgresses(run: seq<World>, acts: seq<Action>, n: nat) returns (b: Base)
    requires IsRun(run, acts) && NoMeddling(acts, run) && n < |run| && AllReady(Now(run[0]))
    ensures ProgressInv(b, run[n]) && Typed(run[n])
  {
    RunKeepsInv(run, acts, n);
    if n == 0 {
      InitProgresses(run[0]);
      b := BaseOf(Now(run[0]));
    } else {
      b := RunProgresses(run, acts, n - 1);
      b := StepProgresses(b, run[n - 1], acts[n - 1], run[n]);
    }
  }

  // Whatever the workers have done to each other, and wherever they have failed or
  // died, one undisturbed sync of any user there is converges.
  lemma EveryStateConverges(run: seq<World>, acts: seq<Action>, n: nat, ns: string, name: string)
    requires IsRun(run, acts) && NoMeddling(acts, run) && n < |run| && AllReady(Now(run[0]))
    requires 0 < |run[n].history| && Key(User, ns, name) in Now(run[n]).objs && name != ""
    ensures var s := Now(run[n]);
            && HasUser(s, ns, name)
            && var e := Sync(s, FreshCaches(s), ns, name, NO_FAULTS);
               e.outcome == Synced && Converged(s, e.store, ns, name)
  {
    var s := Now(run[n]);
    var b := RunProgresses(run, acts, n);
    assert AllKept(b, s);
    KeptIsReady(b, s, Key(User, ns, name));
    SyncSucceedsIff(s, ns, name);
  }

  lemma StepKeepsUsers(w: World, a: Action, w': World, k: Key)
    requires Inv(w) && Typed(w) && Step(w, a, w') && (a.External? ==> Civil(Now(w), a.store))
    requires k in Now(w).objs && k.kind == User
    ensures 0 < |w'.history| && k in Now(w').objs
  {
    if a.Act? {
      ActKeepsObjects(w, a.id, a.views, a.fault);
    }
  }

  // And no user is lost on the way.
  lemma {:induction false} UsersStay(run: seq<World>, acts: seq<Action>, n: nat, m: nat, k: Key)
    requires IsRun(run, acts) && NoMeddling(acts, run) && n <= m < |run|
    requires 0 < |run[n].history| && k in Now(run[n]).objs && k.kind == User
    ensures 0 < |run[m].history| && k in Now(run[m]).objs
  {
    if n < m {
      UsersStay(run, acts, n, m - 1, k);
      RunKeepsInv(run, acts, m - 1);
      StepKeepsUsers(run[m - 1], acts[m - 1], run[m], k);
    }
  }
}
