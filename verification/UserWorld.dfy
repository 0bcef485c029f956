/**
 Any number of user-controller workers over one API server.

 Every action is atomic: a worker makes one step, a worker dies (and, its key
 being enqueued again, may be started afresh), or somebody else writes to the
 server. At each step a worker may see, in each of its four caches, any older
 state of the server, and its call may be refused or lose its answer.
 Nothing forbids two workers on one key.
 */
module UserWorld {
  import opened Options
  import opened KubeApi
  import opened Common
  import opened UserSync

  // A worker and the key it took off the queue.
  datatype Agent = Agent(key: Key, at: Worker)

  // A principal ID that the controller has added to a user.
  datatype Credit = Credit(uid: Uid, userName: string, id: string)

  // history ends with the present store. made and appended only record what
  // happened: the objects workers created, with the key then processed, and
  // the principal IDs they added.
  datatype World = World(history: seq<Store>, agents: map<nat, Agent>, made: map<Uid, Key>, appended: set<Credit>)

  // Which state of the server each cache shows.
  datatype Views = Views(users: nat, principals: nat, roles: nat, bindings: nat)

  datatype Action =
    | Spawn(id: nat, ns: string, name: string)
    | Act(id: nat, views: Views, fault: Fault)
    | Die(id: nat)
    | External(store: Store)

  predicate ValidViews(v: Views, n: nat) { v.users < n && v.principals < n && v.roles < n && v.bindings < n }

  function CachesAt(h: seq<Store>, v: Views): Caches
    requires ValidViews(v, |h|)
  {
    Caches(h[v.users], h[v.principals], h[v.roles], h[v.bindings])
  }

  ghost predicate Typed(w: World) {
    && 0 < |w.history|
    && (forall i | 0 <= i < |w.history| :: WellFormed(w.history[i]))
    && (forall id | id in w.agents :: HoldsUser(w.agents[id].at))
  }

  function Now(w: World): Store
    requires 0 < |w.history|
  {
    Last(w.history)
  }

  // The ID that this step adds to a user, if it adds one.
  function Credits(s: Store, t: Store, w: Worker): set<Credit> {
    if w.UpdateUser? && IsUser(w.user) && w.principal.name !in w.user.body.principalIDs && t != s
    then {Credit(w.user.uid, w.user.name, w.principal.name)}
    else {}
  }

  // made' tells of the objects older than uid what made tells of them.
  ghost predicate Records(made: map<Uid, Key>, made': map<Uid, Key>, uid: Uid) {
    forall u | u in made' && u < uid :: u in made && made'[u] == made[u]
  }

  ghost function ActOn(w: World, id: nat, views: Views, fault: Fault): World
    requires Typed(w) && id in w.agents && ValidViews(views, |w.history|)
  {
    var s, agent := Now(w), w.agents[id];
    var p := Advance(s, CachesAt(w.history, views), agent.at, fault);
    World(w.history + [p.store],
          w.agents[id := agent.(at := p.worker)],
          if p.store.nextUid == s.nextUid then w.made else w.made[s.nextUid := agent.key],
          w.appended + Credits(s, p.store, agent.at))
  }

  // Others may create, change and delete what they like, one object at a time;
  // they do not take over an object's controller reference.
  ghost predicate Step(w: World, a: Action, w': World)
    requires Typed(w)
  {
    match a
    case Spawn(id, ns, name) =>
      id !in w.agents && w' == w.(agents := w.agents[id := Agent(Key(User, ns, name), Begin(ns, name))])
    case Act(id, views, fault) =>
      id in w.agents && ValidViews(views, |w.history|) && w' == ActOn(w, id, views, fault)
    case Die(id) =>
      w' == w.(agents := w.agents - {id})
    case External(t) =>
      WellFormed(t) && Evolves(Now(w), t) && w' == w.(history := w.history + [t])
  }

  ghost predicate Init(w: World) {
    |w.history| == 1 && Coherent(w.history) && w.agents == map[] && w.made == map[] && w.appended == {}
  }

  ghost predicate IsRun(run: seq<World>, acts: seq<Action>) {
    && |run| == |acts| + 1
    && Init(run[0])
    && forall i | 0 <= i < |acts| :: Typed(run[i]) ==> Step(run[i], acts[i], run[i + 1])
  }

  ghost predicate NoDeletes(acts: seq<Action>, run: seq<World>)
    requires |run| == |acts| + 1
  {
    forall i | 0 <= i < |acts| && acts[i].External? && 0 < |run[i].history| :: Keeps(Now(run[i]), acts[i].store)
  }

  // ---- The invariant -----------------------------------------------------

  ghost predicate AgentOk(h: seq<Store>, a: Agent) {
    match a.at
    case Begin(ns, name) => a.key == Key(User, ns, name)
    case Finished(_) => true
    case _ =>
      && IsUser(a.at.user) && KeyOf(User, a.at.user) == a.key && Seen(h, User, a.at.user)
      && (a.at.UpdatePrincipal? ==> Seen(h, Principal, a.at.principal) && ControlledBy(a.at.principal, a.at.user))
  }

  // What a worker has created bears the UID of a User it found under its key.
  ghost predicate Attributed(h: seq<Store>, made: map<Uid, Key>) {
    forall i, k | 0 <= i < |h| && k in h[i].objs && k.kind != Namespace && h[i].objs[k].uid in made ::
      FromUser(h, made[h[i].objs[k].uid], h[i].objs[k].owner)
  }

  ghost predicate FromUser(h: seq<Store>, key: Key, owner: Option<Uid>) {
    exists u :: Seen(h, User, u) && KeyOf(User, u) == key && owner == Some(u.uid)
  }

  ghost predicate Inv(w: World) {
    && Coherent(w.history)
    && (forall id | id in w.agents :: AgentOk(w.history, w.agents[id]))
    && (forall u | u in w.made :: u < Now(w).nextUid)
    && Attributed(w.history, w.made)
  }

  lemma InvIsTyped(w: World)
    requires Inv(w)
    ensures Typed(w)
  {
    forall id | id in w.agents
      ensures HoldsUser(w.agents[id].at)
    {
      assert AgentOk(w.history, w.agents[id]);
    }
  }

  lemma AgentOkStays(h: seq<Store>, t: Store, a: Agent)
    requires AgentOk(h, a)
    ensures AgentOk(h + [t], a)
  {
    if !a.at.Begin? && !a.at.Finished? {
      SeenStays(h, t, User, a.at.user);
      if a.at.UpdatePrincipal? {
        SeenStays(h, t, Principal, a.at.principal);
      }
    }
  }

  lemma SeenNow(h: seq<Store>, t: Store, k: Key)
    requires k in t.objs && WellFormed(t)
    ensures Seen(h + [t], k.kind, t.objs[k])
  {
    assert (h + [t])[|h|] == t;
    StoredIsSeen(h + [t], |h|, k);
  }

  // A step of a worker writes at most one object, takes over no controller
  // reference and deletes nothing.
  lemma ActEvolves(h: seq<Store>, caches: Caches, a: Agent, fault: Fault)
    requires Coherent(h) && AgentOk(h, a) && CachesOk(caches)
    requires HoldsUser(a.at)
    ensures var t := Advance(Last(h), caches, a.at, fault).store;
            WellFormed(t) && Evolves(Last(h), t) && Keeps(Last(h), t)
  {
    var s := Last(h);
    match a.at
    case EnsureNamespace(user) => CreateEvolves(s, Namespace, NamespaceObject(), fault);
    case CreatePrincipal(user) => CreateEvolves(s, Principal, OwnedPrincipal(user), fault);
    case UpdatePrincipal(user, principal) =>
      SwapEvolves(h, Principal, principal, principal.(ns := user.ns, owner := Some(user.uid)), fault);
    case CreateRole(user, _, _) => CreateEvolves(s, ClusterRole, OwnedClusterObject(user), fault);
    case CreateBinding(user, _, _) => CreateEvolves(s, ClusterRoleBinding, OwnedClusterObject(user), fault);
    case UpdateUser(user, principal) => SwapEvolves(h, User, user, WithPrincipal(user, principal), fault);
    case _ =>
  }

  // An update under the resource version and the owner of an object once read.
  lemma SwapEvolves(h: seq<Store>, kind: Kind, read: Object, o: Object, fault: Fault)
    requires Coherent(h) && Seen(h, kind, read) && o.rv == read.rv && o.owner == read.owner
    requires Fits(kind, read.body) ==> Fits(kind, o.body)
    ensures var t := Update(Last(h), kind, o, fault).store;
            WellFormed(t) && Evolves(Last(h), t) && Keeps(Last(h), t)
  {
    var s, k := Last(h), KeyOf(kind, o);
    SeenFits(h, kind, read);
    if k in s.objs && o.rv == s.objs[k].rv {
      SwapHitsWhatWasRead(h, kind, read, k);
    }
    UpdateEvolves(s, kind, o, fault);
  }

  lemma SeenFits(h: seq<Store>, kind: Kind, o: Object)
    requires Coherent(h) && Seen(h, kind, o)
    ensures Fits(kind, o.body) && 0 < o.rv
  {
    var i :| 0 <= i < |h| && KeyOf(kind, o) in h[i].objs && h[i].objs[KeyOf(kind, o)] == o;
    assert Filed(h[i], KeyOf(kind, o), o);
  }

  // A worker never exchanges the user it works for.
  lemma UserIsKept(s: Store, c: Caches, w: Worker, fault: Fault)
    requires CachesOk(c) && HoldsUser(w)
    ensures var next := Advance(s, c, w, fault).worker;
            next.Finished? || (!next.Begin? &&
              if w.Begin? then var k := Key(User, w.ns, w.name); k in c.users.objs && next.user == c.users.objs[k]
              else next.user == w.user)
  {
  }

  // Where a worker that is about to update a principal has it from.
  lemma PrincipalSource(s: Store, c: Caches, w: Worker, fault: Fault)
    requires CachesOk(c) && HoldsUser(w) && WellFormed(s)
    ensures var p := Advance(s, c, w, fault);
            p.worker.UpdatePrincipal? ==>
              && ControlledBy(p.worker.principal, p.worker.user)
              && var k := KeyOf(Principal, p.worker.principal);
                 || (w.Begin? && k in c.principals.objs && c.principals.objs[k] == p.worker.principal)
                 || (w.CreatePrincipal? && k in p.store.objs && p.store.objs[k] == p.worker.principal)
  {
    var p := Advance(s, c, w, fault);
    if p.worker.UpdatePrincipal? && w.Begin? {
      var found := ByName(c.principals, Principal, LocalID(p.worker.user));
      assert TheOnly(found) in found;
      assert Filed(c.principals, TheOnly(found), c.principals.objs[TheOnly(found)]);
    }
  }

  // The worker's locals after a step are still things the server once held.
  lemma ActKeepsAgentOk(h: seq<Store>, views: Views, a: Agent, fault: Fault)
    requires Coherent(h) && AgentOk(h, a) && ValidViews(views, |h|) && HoldsUser(a.at)
    ensures var p := Advance(Last(h), CachesAt(h, views), a.at, fault);
            AgentOk(h + [p.store], a.(at := p.worker))
  {
    var s, c := Last(h), CachesAt(h, views);
    ActEvolves(h, c, a, fault);
    var p := Advance(s, c, a.at, fault);
    if !p.worker.Finished? {
      UserIsKept(s, c, a.at, fault);
      PrincipalSource(s, c, a.at, fault);
      UserSeen(h, views, a, p.worker.user);
      SeenStays(h, p.store, User, p.worker.user);
      if p.worker.UpdatePrincipal? {
        PrincipalSeen(h, views, p.store, p.worker.principal);
      }
    }
  }

  lemma UserSeen(h: seq<Store>, views: Views, a: Agent, user: Object)
    requires Coherent(h) && AgentOk(h, a) && ValidViews(views, |h|) && !a.at.Finished?
    requires if a.at.Begin? then a.key in h[views.users].objs && user == h[views.users].objs[a.key]
             else user == a.at.user
    ensures IsUser(user) && KeyOf(User, user) == a.key && Seen(h, User, user)
  {
    if a.at.Begin? {
      assert Filed(h[views.users], a.key, user);
      StoredIsSeen(h, views.users, a.key);
    }
  }

  lemma PrincipalSeen(h: seq<Store>, views: Views, t: Store, principal: Object)
    requires Coherent(h) && ValidViews(views, |h|) && WellFormed(t)
    requires var k := KeyOf(Principal, principal);
             || (k in h[views.principals].objs && h[views.principals].objs[k] == principal)
             || (k in t.objs && t.objs[k] == principal)
    ensures Seen(h + [t], Principal, principal)
  {
    var k := KeyOf(Principal, principal);
    if k in t.objs && t.objs[k] == principal {
      SeenNow(h, t, k);
    } else {
      StoredIsSeen(h, views.principals, k);
      SeenStays(h, t, Principal, principal);
    }
  }

  // The object a step creates, if it creates one.
  lemma NewObject(s: Store, c: Caches, w: Worker, fault: Fault, k: Key)
    requires CachesOk(c) && HoldsUser(w) && WellFormed(s)
    requires var t := Advance(s, c, w, fault).store; k in t.objs && t.objs[k].uid >= s.nextUid
    ensures var o := Advance(s, c, w, fault).store.objs[k];
            || (w.EnsureNamespace? && k.kind == Namespace)
            || (w.CreatePrincipal? && k.kind == Principal && o.owner == Some(w.user.uid))
            || (w.CreateRole? && k == Key(ClusterRole, "", w.user.name) && o.owner == Some(w.user.uid))
            || (w.CreateBinding? && k == Key(ClusterRoleBinding, "", w.user.name) && o.owner == Some(w.user.uid))
  {
    if k in s.objs {
      assert Filed(s, k, s.objs[k]);
    }
  }

  lemma FromUserStays(h: seq<Store>, t: Store, key: Key, owner: Option<Uid>)
    requires FromUser(h, key, owner)
    ensures FromUser(h + [t], key, owner)
  {
    var u :| Seen(h, User, u) && KeyOf(User, u) == key && owner == Some(u.uid);
    SeenStays(h, t, User, u);
  }

  ghost predicate NewAttributed(h: seq<Store>, t: Store, made: map<Uid, Key>)
    requires 0 < |h|
  {
    forall k | k in t.objs && k.kind != Namespace && t.objs[k].uid in made && t.objs[k].uid >= Last(h).nextUid ::
      FromUser(h + [t], made[t.objs[k].uid], t.objs[k].owner)
  }

  // Attribution survives one more store, given it for the objects that are new in it.
  lemma AttributedExtends(h: seq<Store>, made: map<Uid, Key>, t: Store, made': map<Uid, Key>)
    requires 0 < |h| && CountersGrow(h) && (forall i | 0 <= i < |h| :: WellFormed(h[i]))
    requires Attributed(h, made) && Evolves(Last(h), t)
    requires Records(made, made', Last(h).nextUid)
    requires NewAttributed(h, t, made')
    ensures Attributed(h + [t], made')
  {
    var s := Last(h);
    var g := h + [t];
    forall i, k | 0 <= i < |g| && k in g[i].objs && k.kind != Namespace && g[i].objs[k].uid in made'
      ensures FromUser(g, made'[g[i].objs[k].uid], g[i].objs[k].owner)
    {
      if i < |h| {
        assert Filed(h[i], k, h[i].objs[k]) && h[i].nextUid <= s.nextUid;
        FromUserStays(h, t, made[h[i].objs[k].uid], h[i].objs[k].owner);
      } else if t.objs[k].uid < s.nextUid {
        assert SameAt(s, t, k) || Fresh(s, t, k);
        assert h[|h| - 1].objs[k].uid in made;
        FromUserStays(h, t, made[s.objs[k].uid], s.objs[k].owner);
      }
    }
  }

  lemma NewIsFromUser(h: seq<Store>, c: Caches, a: Agent, fault: Fault, k: Key)
    requires 0 < |h| && WellFormed(Last(h)) && AgentOk(h, a) && CachesOk(c) && HoldsUser(a.at) && k.kind != Namespace
    requires var t := Advance(Last(h), c, a.at, fault).store; k in t.objs && t.objs[k].uid >= Last(h).nextUid
    ensures var t := Advance(Last(h), c, a.at, fault).store; FromUser(h + [t], a.key, t.objs[k].owner)
  {
    NewObject(Last(h), c, a.at, fault, k);
    SeenStays(h, Advance(Last(h), c, a.at, fault).store, User, a.at.user);
  }

  lemma ActAttributesNew(h: seq<Store>, c: Caches, a: Agent, fault: Fault, made: map<Uid, Key>)
    requires 0 < |h| && WellFormed(Last(h)) && AgentOk(h, a) && CachesOk(c) && HoldsUser(a.at)
    requires forall u | u in made && u >= Last(h).nextUid :: made[u] == a.key
    ensures NewAttributed(h, Advance(Last(h), c, a.at, fault).store, made)
  {
    var t := Advance(Last(h), c, a.at, fault).store;
    forall k | k in t.objs && k.kind != Namespace && t.objs[k].uid in made && t.objs[k].uid >= Last(h).nextUid
      ensures FromUser(h + [t], made[t.objs[k].uid], t.objs[k].owner)
    {
      NewIsFromUser(h, c, a, fault, k);
    }
  }

  lemma ActAttributes(h: seq<Store>, made: map<Uid, Key>, c: Caches, a: Agent, fault: Fault, made': map<Uid, Key>)
    requires 0 < |h| && CountersGrow(h) && (forall i | 0 <= i < |h| :: WellFormed(h[i]))
    requires Attributed(h, made) && AgentOk(h, a) && CachesOk(c) && HoldsUser(a.at)
    requires Evolves(Last(h), Advance(Last(h), c, a.at, fault).store)
    requires Records(made, made', Last(h).nextUid)
    requires forall u | u in made' && u >= Last(h).nextUid :: made'[u] == a.key
    ensures Attributed(h + [Advance(Last(h), c, a.at, fault).store], made')
  {
    ActAttributesNew(h, c, a, fault, made');
    AttributedExtends(h, made, Advance(Last(h), c, a.at, fault).store, made');
  }

  lemma ActRecords(w: World, id: nat, views: Views, fault: Fault)
    requires Typed(w) && id in w.agents && ValidViews(views, |w.history|)
    requires forall u | u in w.made :: u < Now(w).nextUid
    ensures var w' := ActOn(w, id, views, fault);
            && Records(w.made, w'.made, Now(w).nextUid)
            && forall u | u in w'.made && u >= Now(w).nextUid :: w'.made[u] == w.agents[id].key
  {
  }

  lemma ActKeepsAttribution(w: World, id: nat, views: Views, fault: Fault)
    requires Inv(w) && Typed(w) && id in w.agents && ValidViews(views, |w.history|)
    ensures var w' := ActOn(w, id, views, fault); Attributed(w'.history, w'.made)
  {
    var a, c := w.agents[id], CachesAt(w.history, views);
    ActEvolves(w.history, c, a, fault);
    ActRecords(w, id, views, fault);
    ActAttributes(w.history, w.made, c, a, fault, ActOn(w, id, views, fault).made);
  }

  lemma MadeStaysOld(w: World, id: nat, views: Views, fault: Fault)
    requires Inv(w) && Typed(w) && id in w.agents && ValidViews(views, |w.history|)
    ensures var w' := ActOn(w, id, views, fault); forall u | u in w'.made :: u < Now(w').nextUid
  {
    ActEvolves(w.history, CachesAt(w.history, views), w.agents[id], fault);
  }

  lemma StepKeepsInv(w: World, a: Action, w': World)
    requires Inv(w) && Typed(w) && Step(w, a, w')
    ensures Inv(w')
  {
    match a
    case Spawn(id, ns, name) =>
    case Die(id) =>
    case Act(id, views, fault) =>
      var agent := w.agents[id];
      var t := Advance(Now(w), CachesAt(w.history, views), agent.at, fault).store;
      ActEvolves(w.history, CachesAt(w.history, views), agent, fault);
      CoherentExtends(w.history, t);
      ActKeepsAttribution(w, id, views, fault);
      MadeStaysOld(w, id, views, fault);
      forall i | i in w'.agents
        ensures AgentOk(w'.history, w'.agents[i])
      {
        if i == id {
          ActKeepsAgentOk(w.history, views, agent, fault);
        } else {
          AgentOkStays(w.history, t, w.agents[i]);
        }
      }
    case External(t) =>
      CoherentExtends(w.history, t);
      forall i | i in w'.agents
        ensures AgentOk(w'.history, w'.agents[i])
      {
        AgentOkStays(w.history, t, w.agents[i]);
      }
      AttributedExtends(w.history, w.made, t, w.made);
  }

  lemma {:induction false} RunKeepsInv(run: seq<World>, acts: seq<Action>, n: nat)
    requires IsRun(run, acts) && n < |run|
    ensures Inv(run[n]) && Typed(run[n])
  {
    if n > 0 {
      RunKeepsInv(run, acts, n - 1);
      StepKeepsInv(run[n - 1], acts[n - 1], run[n]);
    }
    InvIsTyped(run[n]);
  }

  // ---- Theorem 1: ownership ----------------------------------------------

  lemma StepExtends(w: World, a: Action, w': World)
    requires Typed(w) && Step(w, a, w')
    ensures |w.history| <= |w'.history| && w.history == w'.history[..|w.history|]
  {
  }

  // The present stores of a run are entries of the history it ends with.
  lemma {:induction false} HistoryRecords(run: seq<World>, acts: seq<Action>, i: nat, j: nat)
    requires IsRun(run, acts) && i <= j < |run|
    ensures 0 < |run[i].history| <= |run[j].history|
    ensures run[i].history == run[j].history[..|run[i].history|]
  {
    RunKeepsInv(run, acts, i);
    if i < j {
      HistoryRecords(run, acts, i, j - 1);
      RunKeepsInv(run, acts, j - 1);
      StepExtends(run[j - 1], acts[j - 1], run[j]);
    }
  }

  // While an object lives its controller never changes, whatever the workers,
  // their caches, the failures and the other writers do.
  lemma ControllersNeverChange(run: seq<World>, acts: seq<Action>, i: nat, j: nat, k: Key, m: Key)
    requires IsRun(run, acts) && i <= j < |run|
    requires 0 < |run[i].history| && 0 < |run[j].history|
    requires k in Now(run[i]).objs && m in Now(run[j]).objs
    requires Now(run[i]).objs[k].uid == Now(run[j]).objs[m].uid
    ensures k == m && Now(run[i]).objs[k].owner == Now(run[j]).objs[m].owner
  {
    HistoryRecords(run, acts, i, j);
    RunFixesOwners(run, acts, j);
    PresentIsRecorded(run[i].history, run[j].history);
    OwnersAgree(run[j].history, |run[i].history| - 1, |run[j].history| - 1, k, m);
  }

  lemma RunFixesOwners(run: seq<World>, acts: seq<Action>, n: nat)
    requires IsRun(run, acts) && n < |run|
    ensures OwnersFixed(run[n].history)
  {
    RunKeepsInv(run, acts, n);
  }

  lemma PresentIsRecorded(g: seq<Store>, h: seq<Store>)
    requires 0 < |g| <= |h| && g == h[..|g|]
    ensures h[|g| - 1] == Last(g)
  {
  }

  lemma OwnersAgree(h: seq<Store>, i: nat, j: nat, k: Key, m: Key)
    requires OwnersFixed(h) && i < |h| && j < |h|
    requires k in h[i].objs && m in h[j].objs && h[i].objs[k].uid == h[j].objs[m].uid
    ensures k == m && h[i].objs[k].owner == h[j].objs[m].owner
  {
  }

  // Everything but the namespace that a worker creates is controlled by a User
  // that the server held under the key the worker was processing.
  lemma CreationsAreControlledByTheUser(run: seq<World>, acts: seq<Action>, i: nat, k: Key)
    requires IsRun(run, acts) && i < |acts| && acts[i].Act?
    requires 0 < |run[i].history| && 0 < |run[i + 1].history|
    requires k in Now(run[i + 1]).objs && k.kind != Namespace
    requires Now(run[i + 1]).objs[k].uid >= Now(run[i]).nextUid
    ensures acts[i].id in run[i].agents
    ensures FromUser(run[i + 1].history, run[i].agents[acts[i].id].key, Now(run[i + 1]).objs[k].owner)
  {
    RunKeepsInv(run, acts, i);
    var h, s, agent := run[i].history, Now(run[i]), run[i].agents[acts[i].id];
    NewObject(s, CachesAt(h, acts[i].views), agent.at, acts[i].fault, k);
    assert AgentOk(h, agent);
    SeenStays(h, Now(run[i + 1]), User, agent.at.user);
  }

  // ---- Theorem 2: creation order, as long as nothing is deleted ----------

  ghost predicate Owned(s: Store, k: Key, uid: Uid) { k in s.objs && s.objs[k].owner == Some(uid) }

  ghost predicate RoleBacked(s: Store, uid: Uid) {
    exists p: Key :: p.kind == Principal && Owned(s, p, uid)
  }

  ghost predicate CreditBacked(s: Store, c: Credit) {
    && (exists ns :: Owned(s, Key(Principal, ns, c.id), c.uid))
    && Owned(s, Key(ClusterRole, "", c.userName), c.uid)
    && Owned(s, Key(ClusterRoleBinding, "", c.userName), c.uid)
  }

  // How far a worker has come is written in the store: past the binding gate it
  // owns the principal, the role and the binding.
  ghost predicate Backed(s: Store, w: Worker) {
    if w.FindRole? || w.GetRole? || w.CreateRole? then
      Owned(s, Key(Principal, w.principal.ns, w.principal.name), w.user.uid)
    else if w.FindBinding? || w.GetBinding? || w.CreateBinding? then
      && Owned(s, Key(Principal, w.principal.ns, w.principal.name), w.user.uid)
      && Owned(s, Key(ClusterRole, "", w.user.name), w.user.uid)
    else if w.UpdateUser? then
      GrantsOwned(s, w.user, w.principal)
    else
      true
  }

  ghost predicate GrantsOwned(s: Store, user: Object, principal: Object) {
    && Owned(s, Key(Principal, principal.ns, principal.name), user.uid)
    && Owned(s, Key(ClusterRole, "", user.name), user.uid)
    && Owned(s, Key(ClusterRoleBinding, "", user.name), user.uid)
  }

  ghost predicate RolesOrdered(w: World)
    requires 0 < |w.history|
  {
    forall k | k in Now(w).objs && k.kind == ClusterRole && Now(w).objs[k].uid in w.made ::
      Now(w).objs[k].owner.Some? && RoleBacked(Now(w), Now(w).objs[k].owner.value)
  }

  ghost predicate BindingsOrdered(w: World)
    requires 0 < |w.history|
  {
    forall k | k in Now(w).objs && k.kind == ClusterRoleBinding && Now(w).objs[k].uid in w.made ::
      Now(w).objs[k].owner.Some? && Owned(Now(w), Key(ClusterRole, "", k.name), Now(w).objs[k].owner.value)
  }

  ghost predicate InOrder(w: World)
    requires 0 < |w.history|
  {
    && RolesOrdered(w)
    && BindingsOrdered(w)
    && (forall c | c in w.appended :: CreditBacked(Now(w), c))
  }

  ghost predicate OrderInv(w: World) {
    && Inv(w)
    && Retained(w.history)
    && InOrder(w)
    && forall id | id in w.agents :: Backed(Now(w), w.agents[id].at)
  }

  lemma OwnedStays(s: Store, t: Store, k: Key, uid: Uid)
    requires WellFormed(s) && Evolves(s, t) && Keeps(s, t) && Owned(s, k, uid)
    ensures Owned(t, k, uid)
  {
    assert Filed(s, k, s.objs[k]);
    assert SameAt(s, t, k) || Fresh(s, t, k);
  }

  lemma CreditStays(s: Store, t: Store, c: Credit)
    requires WellFormed(s) && Evolves(s, t) && Keeps(s, t) && CreditBacked(s, c)
    ensures CreditBacked(t, c)
  {
    var ns :| Owned(s, Key(Principal, ns, c.id), c.uid);
    OwnedStays(s, t, Key(Principal, ns, c.id), c.uid);
    OwnedStays(s, t, Key(ClusterRole, "", c.userName), c.uid);
    OwnedStays(s, t, Key(ClusterRoleBinding, "", c.userName), c.uid);
  }

  lemma BackedStays(s: Store, t: Store, w: Worker)
    requires WellFormed(s) && Evolves(s, t) && Keeps(s, t) && Backed(s, w)
    ensures Backed(t, w)
  {
    forall k, uid | Owned(s, k, uid)
      ensures Owned(t, k, uid)
    {
      OwnedStays(s, t, k, uid);
    }
  }

  // Objects made earlier stay in order; the step must answer for the one it makes.
  lemma OrderStays(w: World, t: Store, made': map<Uid, Key>)
    requires OrderInv(w) && WellFormed(t) && Evolves(Now(w), t) && Keeps(Now(w), t)
    requires Records(w.made, made', Now(w).nextUid)
    ensures forall k | k in t.objs && k.kind == ClusterRole
                       && t.objs[k].uid in made' && t.objs[k].uid < Now(w).nextUid ::
      t.objs[k].owner.Some? && RoleBacked(t, t.objs[k].owner.value)
    ensures forall k | k in t.objs && k.kind == ClusterRoleBinding
                       && t.objs[k].uid in made' && t.objs[k].uid < Now(w).nextUid ::
      t.objs[k].owner.Some? && Owned(t, Key(ClusterRole, "", k.name), t.objs[k].owner.value)
    ensures forall c | c in w.appended :: CreditBacked(t, c)
  {
    var s := Now(w);
    forall k | k in t.objs && k.kind == ClusterRole && t.objs[k].uid in made' && t.objs[k].uid < s.nextUid
      ensures t.objs[k].owner.Some? && RoleBacked(t, t.objs[k].owner.value)
    {
      assert SameAt(s, t, k) || Fresh(s, t, k);
      var p: Key :| p.kind == Principal && Owned(s, p, s.objs[k].owner.value);
      OwnedStays(s, t, p, s.objs[k].owner.value);
    }
    forall k | k in t.objs && k.kind == ClusterRoleBinding && t.objs[k].uid in made' && t.objs[k].uid < s.nextUid
      ensures t.objs[k].owner.Some? && Owned(t, Key(ClusterRole, "", k.name), t.objs[k].owner.value)
    {
      assert SameAt(s, t, k) || Fresh(s, t, k);
      OwnedStays(s, t, Key(ClusterRole, "", k.name), s.objs[k].owner.value);
    }
    forall c | c in w.appended
      ensures CreditBacked(t, c)
    {
      CreditStays(s, t, c);
    }
  }

  // A cached object that passes the ownership gate is in the store, and owned.
  lemma CachedIsOwned(h: seq<Store>, i: nat, k: Key, user: Object)
    requires Coherent(h) && Retained(h) && i < |h| && k in h[i].objs && ControlledBy(h[i].objs[k], user)
    ensures Owned(Last(h), k, user.uid)
  {
    StoredIsSeen(h, i, k);
    assert Filed(h[i], k, h[i].objs[k]);
    SeenIsPresent(h, k.kind, h[i].objs[k]);
  }

  // A step that takes a worker past a gate leaves an owned object behind it.
  lemma PrincipalGate(s: Store, c: Caches, w: Worker, fault: Fault)
    requires CachesOk(c) && HoldsUser(w) && WellFormed(s)
    requires var p := Advance(s, c, w, fault); p.worker.FindRole? || p.worker.UpdatePrincipal?
    ensures var p := Advance(s, c, w, fault);
            var k := Key(Principal, p.worker.principal.ns, p.worker.principal.name);
            || Owned(p.store, k, p.worker.user.uid)
            || (w.Begin? && k in c.principals.objs && ControlledBy(c.principals.objs[k], p.worker.user))
  {
    if w.Begin? {
      var user := c.users.objs[Key(User, w.ns, w.name)];
      var found := ByName(c.principals, Principal, LocalID(user));
      assert TheOnly(found) in found;
      assert Filed(c.principals, TheOnly(found), c.principals.objs[TheOnly(found)]);
    }
  }

  lemma RoleGate(s: Store, c: Caches, w: Worker, fault: Fault)
    requires CachesOk(c) && HoldsUser(w) && WellFormed(s)
    requires Advance(s, c, w, fault).worker.FindBinding?
    ensures var p := Advance(s, c, w, fault);
            var k := Key(ClusterRole, "", p.worker.user.name);
            && (w.FindRole? || w.GetRole? || w.CreateRole?)
            && p.worker == FindBinding(w.user, w.principal)
            && (|| Owned(p.store, k, w.user.uid)
                || (k in c.roles.objs && ControlledBy(c.roles.objs[k], w.user)))
  {
    if w.FindRole? {
      var found := ByName(c.roles, ClusterRole, w.user.name);
      assert TheOnly(found) in found;
      assert Filed(c.roles, TheOnly(found), c.roles.objs[TheOnly(found)]);
    }
  }

  lemma BindingGate(s: Store, c: Caches, w: Worker, fault: Fault)
    requires CachesOk(c) && HoldsUser(w) && WellFormed(s)
    requires Advance(s, c, w, fault).worker.UpdateUser?
    ensures var p := Advance(s, c, w, fault);
            var k := Key(ClusterRoleBinding, "", p.worker.user.name);
            && (w.FindBinding? || w.GetBinding? || w.CreateBinding?)
            && p.worker == UpdateUser(w.user, w.principal)
            && (|| Owned(p.store, k, w.user.uid)
                || (k in c.bindings.objs && ControlledBy(c.bindings.objs[k], w.user)))
  {
    if w.FindBinding? {
      var found := ByName(c.bindings, ClusterRoleBinding, w.user.name);
      assert TheOnly(found) in found;
      assert Filed(c.bindings, TheOnly(found), c.bindings.objs[TheOnly(found)]);
    }
  }

  // Between the gates a worker only moves on, with the same locals.
  lemma BetweenGates(s: Store, c: Caches, w: Worker, fault: Fault)
    requires CachesOk(c) && HoldsUser(w)
    ensures var next := Advance(s, c, w, fault).worker;
            && (next.GetRole? || next.CreateRole? ==>
                  (w.FindRole? || w.GetRole?) && next.user == w.user && next.principal == w.principal)
            && (next.GetBinding? || next.CreateBinding? ==>
                  (w.FindBinding? || w.GetBinding?) && next.user == w.user && next.principal == w.principal)
  {
  }

  lemma OwnedLater(h: seq<Store>, t: Store, i: nat, k: Key, user: Object)
    requires Coherent(h) && Retained(h) && Evolves(Last(h), t) && Keeps(Last(h), t)
    requires i < |h| && k in h[i].objs && ControlledBy(h[i].objs[k], user)
    ensures Owned(t, k, user.uid)
  {
    CachedIsOwned(h, i, k, user);
    OwnedStays(Last(h), t, k, user.uid);
  }

  lemma ActBacks(w: World, id: nat, views: Views, fault: Fault)
    requires OrderInv(w) && Typed(w) && id in w.agents && ValidViews(views, |w.history|)
    ensures var p := Advance(Now(w), CachesAt(w.history, views), w.agents[id].at, fault); Backed(p.store, p.worker)
  {
    var h, s, a, c := w.history, Now(w), w.agents[id], CachesAt(w.history, views);
    ActEvolves(h, c, a, fault);
    var p := Advance(s, c, a.at, fault);
    BackedStays(s, p.store, a.at);
    BetweenGates(s, c, a.at, fault);
    if p.worker.FindRole? {
      PrincipalGate(s, c, a.at, fault);
      var k := Key(Principal, p.worker.principal.ns, p.worker.principal.name);
      if !Owned(p.store, k, p.worker.user.uid) {
        OwnedLater(h, p.store, views.principals, k, p.worker.user);
      }
    } else if p.worker.FindBinding? {
      RoleGate(s, c, a.at, fault);
      var k := Key(ClusterRole, "", p.worker.user.name);
      if !Owned(p.store, k, p.worker.user.uid) {
        OwnedLater(h, p.store, views.roles, k, p.worker.user);
      }
    } else if p.worker.UpdateUser? {
      BindingGate(s, c, a.at, fault);
      var k := Key(ClusterRoleBinding, "", p.worker.user.name);
      if !Owned(p.store, k, p.worker.user.uid) {
        OwnedLater(h, p.store, views.bindings, k, p.worker.user);
      }
    }
  }

  // What a worker had to pass before it could create a role or a binding.
  lemma NewObjectIsBacked(s: Store, c: Caches, w: Worker, fault: Fault, k: Key)
    requires CachesOk(c) && HoldsUser(w) && WellFormed(s)
    requires var t := Advance(s, c, w, fault).store; k in t.objs && t.objs[k].uid >= s.nextUid && Backed(t, w)
    ensures var t := Advance(s, c, w, fault).store;
            && (k.kind == ClusterRole ==> t.objs[k].owner.Some? && RoleBacked(t, t.objs[k].owner.value))
            && (k.kind == ClusterRoleBinding ==>
                  t.objs[k].owner.Some? && Owned(t, Key(ClusterRole, "", k.name), t.objs[k].owner.value))
  {
    var t := Advance(s, c, w, fault).store;
    NewObject(s, c, w, fault, k);
    if k.kind == ClusterRole {
      assert Owned(t, Key(Principal, w.principal.ns, w.principal.name), w.user.uid);
    }
  }

  lemma NewObjectsAreBacked(s: Store, c: Caches, w: Worker, fault: Fault)
    requires CachesOk(c) && HoldsUser(w) && WellFormed(s) && Backed(Advance(s, c, w, fault).store, w)
    ensures var t := Advance(s, c, w, fault).store;
            forall k | k in t.objs && t.objs[k].uid >= s.nextUid ::
              && (k.kind == ClusterRole ==> t.objs[k].owner.Some? && RoleBacked(t, t.objs[k].owner.value))
              && (k.kind == ClusterRoleBinding ==>
                    t.objs[k].owner.Some? && Owned(t, Key(ClusterRole, "", k.name), t.objs[k].owner.value))
  {
    var t := Advance(s, c, w, fault).store;
    forall k | k in t.objs && t.objs[k].uid >= s.nextUid
      ensures k.kind == ClusterRole ==> t.objs[k].owner.Some? && RoleBacked(t, t.objs[k].owner.value)
      ensures k.kind == ClusterRoleBinding ==>
        t.objs[k].owner.Some? && Owned(t, Key(ClusterRole, "", k.name), t.objs[k].owner.value)
    {
      NewObjectIsBacked(s, c, w, fault, k);
    }
  }

  lemma NewCreditIsBacked(s: Store, t: Store, w: Worker, x: Credit)
    requires Backed(t, w) && x in Credits(s, t, w)
    ensures CreditBacked(t, x)
  {
    assert Owned(t, Key(Principal, w.principal.ns, x.id), x.uid);
  }

  lemma ActKeepsOrder(w: World, id: nat, views: Views, fault: Fault)
    requires OrderInv(w) && Typed(w) && id in w.agents && ValidViews(views, |w.history|)
    ensures InOrder(ActOn(w, id, views, fault))
  {
    var s, a, c := Now(w), w.agents[id], CachesAt(w.history, views);
    var w' := ActOn(w, id, views, fault);
    var t := Now(w');
    assert t == Advance(s, c, a.at, fault).store;
    ActEvolves(w.history, c, a, fault);
    OrderStays(w, t, w'.made);
    BackedStays(s, t, a.at);
    NewObjectsAreBacked(s, c, a.at, fault);
    forall x | x in Credits(s, t, a.at)
      ensures CreditBacked(t, x)
    {
      NewCreditIsBacked(s, t, a.at, x);
    }
  }

  lemma ActBacksAll(w: World, id: nat, views: Views, fault: Fault)
    requires OrderInv(w) && Typed(w) && id in w.agents && ValidViews(views, |w.history|)
    ensures var w' := ActOn(w, id, views, fault); forall i | i in w'.agents :: Backed(Now(w'), w'.agents[i].at)
  {
    var w' := ActOn(w, id, views, fault);
    ActEvolves(w.history, CachesAt(w.history, views), w.agents[id], fault);
    ActBacks(w, id, views, fault);
    forall i | i in w'.agents && i != id
      ensures Backed(Now(w'), w'.agents[i].at)
    {
      BackedStays(Now(w), Now(w'), w.agents[i].at);
    }
  }

  lemma ActKeepsOrderInv(w: World, id: nat, views: Views, fault: Fault)
    requires OrderInv(w) && Typed(w) && id in w.agents && ValidViews(views, |w.history|)
    requires Inv(ActOn(w, id, views, fault))
    ensures OrderInv(ActOn(w, id, views, fault))
  {
    ActEvolves(w.history, CachesAt(w.history, views), w.agents[id], fault);
    RetainedExtends(w.history, Now(ActOn(w, id, views, fault)));
    ActKeepsOrder(w, id, views, fault);
    ActBacksAll(w, id, views, fault);
  }

  lemma ExternalKeepsOrderInv(w: World, t: Store)
    requires OrderInv(w) && WellFormed(t) && Evolves(Now(w), t) && Keeps(Now(w), t)
    requires Inv(w.(history := w.history + [t]))
    ensures OrderInv(w.(history := w.history + [t]))
  {
    RetainedExtends(w.history, t);
    OrderStays(w, t, w.made);
    forall i | i in w.agents
      ensures Backed(t, w.agents[i].at)
    {
      BackedStays(Now(w), t, w.agents[i].at);
    }
  }

  lemma StepKeepsOrder(w: World, a: Action, w': World)
    requires OrderInv(w) && Typed(w) && Step(w, a, w')
    requires a.External? ==> Keeps(Now(w), a.store)
    ensures OrderInv(w')
  {
    StepKeepsInv(w, a, w');
    match a
    case Spawn(id, ns, name) =>
    case Die(id) =>
    case Act(id, views, fault) => ActKeepsOrderInv(w, id, views, fault);
    case External(t) => ExternalKeepsOrderInv(w, t);
  }

  lemma InitOrdered(w: World)
    requires Init(w) && Inv(w)
    ensures OrderInv(w)
  {
    RetainedOne(w.history);
    NothingOrdered(w);
  }

  lemma NothingOrdered(w: World)
    requires 0 < |w.history| && w.agents == map[] && w.made == map[] && w.appended == {}
    ensures InOrder(w)
  {
  }

  lemma RunStepKeepsOrder(run: seq<World>, acts: seq<Action>, i: nat)
    requires IsRun(run, acts) && NoDeletes(acts, run) && i < |acts| && OrderInv(run[i]) && Typed(run[i])
    ensures OrderInv(run[i + 1])
  {
    assert Step(run[i], acts[i], run[i + 1]);
    StepKeepsOrder(run[i], acts[i], run[i + 1]);
  }

  // In every state of every run without deletes: a ClusterRole made by a worker
  // implies a Principal of the same User, a ClusterRoleBinding implies the
  // ClusterRole, and a principal ID added to a User implies all three.
  lemma {:induction false} CreationOrder(run: seq<World>, acts: seq<Action>, n: nat)
    requires IsRun(run, acts) && NoDeletes(acts, run) && n < |run|
    ensures OrderInv(run[n]) && InOrder(run[n])
  {
    if n == 0 {
      RunKeepsInv(run, acts, 0);
      InitOrdered(run[0]);
    } else {
      CreationOrder(run, acts, n - 1);
      RunKeepsInv(run, acts, n - 1);
      RunStepKeepsOrder(run, acts, n - 1);
    }
  }
}
