/**
 Any number of infrastructure-controller workers over one API server from which
 nothing is deleted.

 As in UserWorld, workers interleave step by step, die and start over, see any
 older state in each cache, and have calls refused or their answers lost.
 */
module InfraWorld {
  import opened Options
  import opened KubeApi
  import opened InfraSync

  datatype Agent = Agent(key: Key, at: Worker)

  // made records the UIDs of the objects that workers created.
  datatype World = World(history: seq<Store>, agents: map<nat, Agent>, made: set<Uid>)

  datatype Views = Views(infras: nat, deployments: nat, services: nat)

  datatype Action =
    | Spawn(id: nat, ns: string, name: string)
    | Act(id: nat, views: Views, fault: Fault)
    | Die(id: nat)
    | External(store: Store)

  predicate ValidViews(v: Views, n: nat) { v.infras < n && v.deployments < n && v.services < n }

  function CachesAt(h: seq<Store>, v: Views): Caches
    requires ValidViews(v, |h|)
  {
    Caches(h[v.infras], h[v.deployments], h[v.services])
  }

  ghost predicate Typed(w: World) {
    && 0 < |w.history|
    && (forall i | 0 <= i < |w.history| :: WellFormed(w.history[i]))
    && (forall id | id in w.agents :: HoldsInfra(w.agents[id].at))
  }

  function Now(w: World): Store
    requires 0 < |w.history|
  {
    Last(w.history)
  }

  // An Infrastructure bears the name of the main Deployment of its kind, as
  // those that the server's own InfrastructureDeploy creates do.
  predicate Canonical(o: Object) {
    IsInfra(o) && (Known(o.body.infraKind) ==> MainKey(o.body.infraKind) == Key(Deployment, o.ns, o.name))
  }

  // One that asks for a number of replicas does; others may bear any name.
  predicate Tame(o: Object) {
    IsInfra(o) && (o.body.wanted.Some? ==> Canonical(o))
  }

  ghost predicate AllTame(s: Store) {
    forall k | k in s.objs && k.kind == Infrastructure :: Tame(s.objs[k])
  }

  ghost predicate IsInfraUid(h: seq<Store>, uid: Uid) {
    exists o :: Seen(h, Infrastructure, o) && o.uid == uid
  }

  // What outsiders write: controller references are to objects that exist or
  // existed, and no outsider puts up a main Deployment in an Infrastructure's name.
  ghost predicate Benign(h: seq<Store>, t: Store)
    requires 0 < |h|
  {
    && (forall k | k in t.objs && t.objs[k].owner.Some? && t.objs[k].uid >= Last(h).nextUid ::
          t.objs[k].owner.value < Last(h).nextUid)
    && (forall kind | Known(kind) && MainKey(kind) in t.objs && t.objs[MainKey(kind)].owner.Some?
          && t.objs[MainKey(kind)].uid >= Last(h).nextUid ::
          !IsInfraUid(h, t.objs[MainKey(kind)].owner.value))
  }

  ghost function ActOn(w: World, id: nat, views: Views, fault: Fault): World
    requires Typed(w) && id in w.agents && ValidViews(views, |w.history|)
  {
    var s, agent := Now(w), w.agents[id];
    var p := Advance(s, CachesAt(w.history, views), agent.at, fault);
    World(w.history + [p.store],
          w.agents[id := agent.(at := p.worker)],
          if p.store.nextUid == s.nextUid then w.made else w.made + {s.nextUid})
  }

  ghost predicate Step(w: World, a: Action, w': World)
    requires Typed(w)
  {
    match a
    case Spawn(id, ns, name) =>
      id !in w.agents && w' == w.(agents := w.agents[id := Agent(Key(Infrastructure, ns, name), Begin(ns, name))])
    case Act(id, views, fault) =>
      id in w.agents && ValidViews(views, |w.history|) && w' == ActOn(w, id, views, fault)
    case Die(id) =>
      w' == w.(agents := w.agents - {id})
    case External(t) =>
      && WellFormed(t) && Evolves(Now(w), t) && Keeps(Now(w), t) && Benign(w.history, t)
      && w' == w.(history := w.history + [t])
  }

  // A run may start amid the leftovers of earlier ones.
  ghost predicate Init(w: World) {
    && |w.history| == 1 && Coherent(w.history) && w.agents == map[] && w.made == {}
    && OwnersOld(w.history[0])
    && MainsBacked(w.history, w.history[0])
  }

  ghost predicate IsRun(run: seq<World>, acts: seq<Action>) {
    && |run| == |acts| + 1
    && Init(run[0])
    && forall i | 0 <= i < |acts| :: Typed(run[i]) ==> Step(run[i], acts[i], run[i + 1])
  }

  // ---- The invariant -------------------------------------------------------

  ghost predicate OwnersOld(s: Store) {
    forall k | k in s.objs && s.objs[k].owner.Some? :: s.objs[k].owner.value < s.nextUid
  }

  // The first n objects of a bundle exist.
  ghost predicate Reached(s: Store, kind: InfraKind, n: nat)
    requires n <= |Bundle(kind)|
  {
    forall j | 0 <= j < n :: Bundle(kind)[j] in s.objs
  }

  ghost predicate Complete(s: Store, kind: InfraKind) { Reached(s, kind, |Bundle(kind)|) }

  // A main Deployment controlled by an Infrastructure has its whole bundle behind it.
  ghost predicate MainsBacked(h: seq<Store>, s: Store) {
    forall kind | Known(kind) && MainKey(kind) in s.objs && s.objs[MainKey(kind)].owner.Some?
      && IsInfraUid(h, s.objs[MainKey(kind)].owner.value) :: Complete(s, kind)
  }

  // Of each bundle, what workers created comes after everything before it.
  ghost predicate PrefixesHold(s: Store, made: set<Uid>) {
    forall kind, i | Known(kind) && 0 <= i < |Bundle(kind)| && Bundle(kind)[i] in s.objs
      && s.objs[Bundle(kind)[i]].uid in made :: Reached(s, kind, i)
  }

  ghost predicate AgentOk(h: seq<Store>, a: Agent)
    requires 0 < |h|
  {
    if a.at.Begin? then a.key == Key(Infrastructure, a.at.ns, a.at.name)
    else if a.at.Finished? then true
    else
      && HoldsInfra(a.at) && KeyOf(Infrastructure, a.at.infra) == a.key && Seen(h, Infrastructure, a.at.infra)
      && Progressed(Last(h), a.at)
  }

  predicate OnUpdatePath(w: Worker) { w.UpdateNamespace? || w.UpdateItem? || w.UpdateMain? }

  // A worker that turns to its update path does so soundly if, of a Dashboard, the
  // main Deployment is there and its own or, of another kind, everything is there
  // that comes before the objects this path creates.
  ghost predicate EntrySound(s: Store, infra: Object)
    requires IsInfra(infra) && Known(infra.body.infraKind)
  {
    var kind := infra.body.infraKind;
    if kind == Dashboard then MainKey(kind) in s.objs && ControlledBy(s.objs[MainKey(kind)], infra)
    else UPDATE_FROM <= |Bundle(kind)| && Reached(s, kind, UPDATE_FROM)
  }

  // How far a worker has come is written in the store.
  ghost predicate Progressed(s: Store, w: Worker)
    requires HoldsInfra(w)
  {
    && (w.CreateItem? || w.UpdateItem? ==>
          w.item < |Bundle(w.infra.body.infraKind)| && Reached(s, w.infra.body.infraKind, w.item))
    && (w.UpdateNamespace? || w.UpdateMain? ==> EntrySound(s, w.infra))
  }

  ghost predicate EntersSoundly(w: World, a: Action) {
    Typed(w) && a.Act? && a.id in w.agents && ValidViews(a.views, |w.history|) && w.agents[a.id].at.Begin? ==>
      var next := Start(CachesAt(w.history, a.views), w.agents[a.id].at.ns, w.agents[a.id].at.name);
      next.UpdateNamespace? ==>
        IsInfra(next.infra) && Known(next.infra.body.infraKind) && EntrySound(Now(w), next.infra)
  }

  // A run in which every worker that turns to its update path does so soundly.
  ghost predicate IsSoundRun(run: seq<World>, acts: seq<Action>) {
    IsRun(run, acts) && forall i | 0 <= i < |acts| :: EntersSoundly(run[i], acts[i])
  }

  ghost predicate Inv(w: World) {
    && Coherent(w.history)
    && Retained(w.history)
    && OwnersOld(Now(w))
    && MainsBacked(w.history, Now(w))
    && PrefixesHold(Now(w), w.made)
    && (forall u | u in w.made :: u < Now(w).nextUid)
    && (forall id | id in w.agents :: AgentOk(w.history, w.agents[id]))
  }

  lemma InvIsTyped(w: World)
    requires Inv(w)
    ensures Typed(w)
  {
    forall id | id in w.agents
      ensures HoldsInfra(w.agents[id].at)
    {
      assert AgentOk(w.history, w.agents[id]);
    }
  }

  // ---- One more store ------------------------------------------------------

  lemma ReachedStays(s: Store, t: Store, kind: InfraKind, n: nat)
    requires n <= |Bundle(kind)| && Keeps(s, t) && Reached(s, kind, n)
    ensures Reached(t, kind, n)
  {
  }

  lemma OwnerStays(s: Store, t: Store, k: Key)
    requires WellFormed(s) && Evolves(s, t) && Keeps(s, t) && k in s.objs
    ensures k in t.objs && t.objs[k].uid == s.objs[k].uid && t.objs[k].owner == s.objs[k].owner
  {
    assert Filed(s, k, s.objs[k]);
    assert SameAt(s, t, k) || Fresh(s, t, k);
  }

  // A key that is new in t got a new UID.
  lemma NewKeyNewUid(s: Store, t: Store, k: Key)
    requires WellFormed(s) && Evolves(s, t) && Keeps(s, t) && k in t.objs
    ensures if k in s.objs then t.objs[k].uid < s.nextUid else t.objs[k].uid >= s.nextUid
  {
    assert SameAt(s, t, k) || Fresh(s, t, k);
    if k in s.objs {
      assert Filed(s, k, s.objs[k]);
    }
  }

  lemma EntryStaysSound(s: Store, t: Store, infra: Object)
    requires IsInfra(infra) && Known(infra.body.infraKind) && EntrySound(s, infra)
    requires WellFormed(s) && Evolves(s, t) && Keeps(s, t)
    ensures EntrySound(t, infra)
  {
    var kind := infra.body.infraKind;
    if kind == Dashboard {
      OwnerStays(s, t, MainKey(kind));
    } else {
      ReachedStays(s, t, kind, UPDATE_FROM);
    }
  }

  lemma AgentOkStays(h: seq<Store>, t: Store, a: Agent)
    requires Coherent(h) && AgentOk(h, a) && Evolves(Last(h), t) && Keeps(Last(h), t)
    ensures AgentOk(h + [t], a)
  {
    if !a.at.Begin? && !a.at.Finished? {
      SeenStays(h, t, Infrastructure, a.at.infra);
      if a.at.CreateItem? || a.at.UpdateItem? {
        ReachedStays(Last(h), t, a.at.infra.body.infraKind, a.at.item);
      } else if a.at.UpdateNamespace? || a.at.UpdateMain? {
        EntryStaysSound(Last(h), t, a.at.infra);
      }
    }
  }

  // A UID that t makes an Infrastructure's is either one already or brand new.
  lemma InfraUidOld(h: seq<Store>, t: Store, uid: Uid)
    requires 0 < |h| && WellFormed(Last(h)) && Evolves(Last(h), t)
    requires IsInfraUid(h + [t], uid) && uid < Last(h).nextUid
    ensures IsInfraUid(h, uid)
  {
    var o :| Seen(h + [t], Infrastructure, o) && o.uid == uid;
    var k := KeyOf(Infrastructure, o);
    SeenOrNow(h, t, Infrastructure, o);
    if !Seen(h, Infrastructure, o) {
      OldUidStays(Last(h), t, k);
      StoredIsSeen(h, |h| - 1, k);
      assert Seen(h, Infrastructure, Last(h).objs[k]);
    }
  }

  // The main Deployments stay backed, given an answer for those that are new in t.
  lemma MainsStayBacked(h: seq<Store>, t: Store)
    requires Coherent(h) && MainsBacked(h, Last(h)) && OwnersOld(Last(h))
    requires WellFormed(t) && Evolves(Last(h), t) && Keeps(Last(h), t)
    requires forall kind | Known(kind) && MainKey(kind) in t.objs && MainKey(kind) !in Last(h).objs
               && t.objs[MainKey(kind)].owner.Some? && IsInfraUid(h + [t], t.objs[MainKey(kind)].owner.value) ::
               Complete(t, kind)
    ensures MainsBacked(h + [t], t)
  {
    var s := Last(h);
    forall kind | Known(kind) && MainKey(kind) in t.objs && t.objs[MainKey(kind)].owner.Some?
                  && IsInfraUid(h + [t], t.objs[MainKey(kind)].owner.value)
      ensures Complete(t, kind)
    {
      if MainKey(kind) in s.objs {
        OwnerStays(s, t, MainKey(kind));
        InfraUidOld(h, t, s.objs[MainKey(kind)].owner.value);
        ReachedStays(s, t, kind, |Bundle(kind)|);
      }
    }
  }

  lemma OwnersStayOld(s: Store, t: Store)
    requires WellFormed(s) && OwnersOld(s) && Evolves(s, t) && Keeps(s, t)
    requires forall k | k in t.objs && t.objs[k].owner.Some? && t.objs[k].uid >= s.nextUid ::
               t.objs[k].owner.value < s.nextUid
    ensures OwnersOld(t)
  {
    forall k | k in t.objs && t.objs[k].owner.Some?
      ensures t.objs[k].owner.value < t.nextUid
    {
      NewKeyNewUid(s, t, k);
      if k in s.objs {
        OwnerStays(s, t, k);
      }
    }
  }

  lemma PrefixesStay(s: Store, t: Store, made: set<Uid>, made': set<Uid>)
    requires WellFormed(s) && Evolves(s, t) && Keeps(s, t) && PrefixesHold(s, made)
    requires forall u | u in made' && u < s.nextUid :: u in made
    requires forall kind, i | Known(kind) && 0 <= i < |Bundle(kind)| && Bundle(kind)[i] in t.objs
               && Bundle(kind)[i] !in s.objs && t.objs[Bundle(kind)[i]].uid in made' :: Reached(t, kind, i)
    ensures PrefixesHold(t, made')
  {
    forall kind, i | Known(kind) && 0 <= i < |Bundle(kind)|
                     && Bundle(kind)[i] in t.objs && t.objs[Bundle(kind)[i]].uid in made'
      ensures Reached(t, kind, i)
    {
      var k := Bundle(kind)[i];
      NewKeyNewUid(s, t, k);
      if k in s.objs {
        OwnerStays(s, t, k);
        ReachedStays(s, t, kind, i);
      }
    }
  }

  // ---- A worker's step -------------------------------------------------------

  lemma SeenFits(h: seq<Store>, o: Object)
    requires Coherent(h) && Seen(h, Infrastructure, o)
    ensures IsInfra(o) && 0 < o.rv && 0 < o.uid < Last(h).nextUid
  {
    var k := KeyOf(Infrastructure, o);
    var i :| 0 <= i < |h| && k in h[i].objs && h[i].objs[k] == o;
    assert Filed(h[i], k, o);
    assert h[i].nextUid <= h[|h| - 1].nextUid;
  }

  lemma ItemFits(infra: Object, item: nat)
    requires IsInfra(infra) && Known(infra.body.infraKind) && item < |Bundle(infra.body.infraKind)|
    ensures var k := Bundle(infra.body.infraKind)[item];
            && KeyOf(k.kind, Item(infra, item)) == k
            && Fits(k.kind, Item(infra, item).body)
            && (ClusterScoped(k.kind) ==> k.ns == "")
  {
    BundleShape(infra.body.infraKind);
  }

  // No update a worker is about to make would change a controller.
  ghost predicate UpdatesSafe(s: Store, w: Worker)
    requires HoldsInfra(w)
  {
    && (w.UpdateMain? && MainKey(Dashboard) in s.objs ==> ControlledBy(s.objs[MainKey(Dashboard)], w.infra))
    && (w.UpdateStatus? ==> 0 < w.infra.rv)
    && (w.UpdateStatus? ==> var k := KeyOf(Infrastructure, w.infra);
          k in s.objs && s.objs[k].rv == w.infra.rv ==> s.objs[k].owner == w.infra.owner)
  }

  lemma StepEvolves(s: Store, c: Caches, w: Worker, fault: Fault)
    requires WellFormed(s) && CachesOk(c) && HoldsInfra(w) && UpdatesSafe(s, w)
    ensures var t := Advance(s, c, w, fault).store; WellFormed(t) && Evolves(s, t) && Keeps(s, t)
  {
    match w
    case CreateNamespace(infra) => CreateEvolves(s, Namespace, NamespaceOf(infra.body.infraKind), fault);
    case UpdateNamespace(infra) => CreateEvolves(s, Namespace, NamespaceOf(infra.body.infraKind), fault);
    case CreateItem(infra, item) => ItemEvolves(s, infra, item, fault);
    case UpdateItem(infra, item) =>
      BundleShape(infra.body.infraKind);
      assert ItemShaped(infra.body.infraKind, item);
      ItemEvolves(s, infra, item, fault);
    case UpdateMain(infra) => MainEvolves(s, infra, fault);
    case UpdateStatus(infra, available) =>
      UpdateEvolves(s, Infrastructure, WithStatus(infra, available, c.services), fault);
    case _ =>
  }

  lemma ActEvolves(h: seq<Store>, caches: Caches, a: Agent, fault: Fault)
    requires Coherent(h) && AgentOk(h, a) && CachesOk(caches) && HoldsInfra(a.at)
    ensures var t := Advance(Last(h), caches, a.at, fault).store;
            WellFormed(t) && Evolves(Last(h), t) && Keeps(Last(h), t)
  {
    if a.at.UpdateStatus? {
      SeenFits(h, a.at.infra);
      StatusIsSwapped(h, a.at.infra, KeyOf(Infrastructure, a.at.infra));
    }
    StepEvolves(Last(h), caches, a.at, fault);
  }

  lemma ItemEvolves(s: Store, infra: Object, item: nat, fault: Fault)
    requires WellFormed(s) && IsInfra(infra) && Known(infra.body.infraKind) && item < |Bundle(infra.body.infraKind)|
    ensures var t := Create(s, Bundle(infra.body.infraKind)[item].kind, Item(infra, item), fault).store;
            WellFormed(t) && Evolves(s, t) && Keeps(s, t)
  {
    ItemFits(infra, item);
    CreateEvolves(s, Bundle(infra.body.infraKind)[item].kind, Item(infra, item), fault);
  }

  lemma MainEvolves(s: Store, infra: Object, fault: Fault)
    requires WellFormed(s) && IsInfra(infra) && infra.body.infraKind == Dashboard
    requires MainKey(Dashboard) in s.objs ==> ControlledBy(s.objs[MainKey(Dashboard)], infra)
    ensures |Bundle(Dashboard)| > UPDATE_FROM
    ensures var t := Update(s, Deployment, Item(infra, UPDATE_FROM), fault).store;
            WellFormed(t) && Evolves(s, t) && Keeps(s, t)
  {
    BundleShape(Dashboard);
    ItemFits(infra, UPDATE_FROM);
    UpdateEvolves(s, Deployment, Item(infra, UPDATE_FROM), fault);
  }

  // The only objects a step creates: a namespace, or the next item of a bundle.
  lemma NewObject(s: Store, c: Caches, w: Worker, fault: Fault, k: Key)
    requires CachesOk(c) && HoldsInfra(w) && WellFormed(s)
    requires k in Advance(s, c, w, fault).store.objs && k !in s.objs
    ensures || k.kind == Namespace
            || ((w.CreateItem? || w.UpdateItem?) && w.item < |Bundle(w.infra.body.infraKind)|
                && k == Bundle(w.infra.body.infraKind)[w.item]
                && Advance(s, c, w, fault).store.objs[k].owner == Some(w.infra.uid))
  {
    if w.CreateItem? || w.UpdateItem? {
      BundleShape(w.infra.body.infraKind);
      ItemFits(w.infra, w.item);
      assert ItemShaped(w.infra.body.infraKind, w.item);
    }
  }

  // A step writes no Infrastructure but the worker's own, and of that only the status.
  lemma InfraWrites(s: Store, c: Caches, w: Worker, fault: Fault, k: Key)
    requires CachesOk(c) && HoldsInfra(w) && WellFormed(s)
    requires k.kind == Infrastructure && k in Advance(s, c, w, fault).store.objs
    ensures var o := Advance(s, c, w, fault).store.objs[k];
            || (k in s.objs && o == s.objs[k])
            || (w.UpdateStatus? && o.ns == w.infra.ns && o.name == w.infra.name && IsInfra(o)
                && o.body.infraKind == w.infra.body.infraKind && o.body.wanted == w.infra.body.wanted)
  {
    if w.CreateItem? || w.UpdateItem? {
      BundleShape(w.infra.body.infraKind);
      assert ItemShaped(w.infra.body.infraKind, w.item);
    }
    if w.UpdateStatus? && k in s.objs {
      assert Filed(s, k, s.objs[k]);
    }
  }

  // Of its own Infrastructure a worker writes the status alone.
  lemma OnlyStatusIsWritten(h: seq<Store>, c: Caches, a: Agent, fault: Fault, k: Key)
    requires Coherent(h) && AgentOk(h, a) && CachesOk(c) && HoldsInfra(a.at) && k.kind == Infrastructure
    requires k in Advance(Last(h), c, a.at, fault).store.objs
    ensures var s, o := Last(h), Advance(Last(h), c, a.at, fault).store.objs[k];
            k in s.objs && (
              || o == s.objs[k]
              || (&& a.at.UpdateStatus? && k == a.key && IsInfra(s.objs[k]) && IsInfra(o)
                  && o == s.objs[k].(rv := o.rv, body := s.objs[k].body.(status := o.body.status))))
  {
    var s := Last(h);
    InfraWrites(s, c, a.at, fault, k);
    if k !in s.objs {
      NoNewInfra(s, c, a.at, fault, k);
    } else if a.at.UpdateStatus? {
      SeenFits(h, a.at.infra);
      StatusIsSwapped(h, a.at.infra, k);
    }
  }

  lemma NoNewInfra(s: Store, c: Caches, w: Worker, fault: Fault, k: Key)
    requires CachesOk(c) && HoldsInfra(w) && k.kind == Infrastructure
    ensures k in Advance(s, c, w, fault).store.objs ==> k in s.objs
  {
    if w.CreateItem? || w.UpdateItem? {
      BundleShape(w.infra.body.infraKind);
      assert ItemShaped(w.infra.body.infraKind, w.item);
    }
  }

  lemma StatusIsSwapped(h: seq<Store>, infra: Object, k: Key)
    requires Coherent(h) && Seen(h, Infrastructure, infra)
    ensures k in Last(h).objs && Last(h).objs[k].rv == infra.rv ==> Last(h).objs[k] == infra
  {
    if k in Last(h).objs && Last(h).objs[k].rv == infra.rv {
      SwapHitsWhatWasRead(h, Infrastructure, infra, k);
    }
  }

  lemma InfraIsKept(s: Store, c: Caches, w: Worker, fault: Fault)
    requires CachesOk(c) && HoldsInfra(w)
    ensures var next := Advance(s, c, w, fault).worker;
            next.Finished? || (!next.Begin? &&
              if w.Begin?
              then var k := Key(Infrastructure, w.ns, w.name); k in c.infras.objs && next.infra == c.infras.objs[k]
              else next.infra == w.infra)
  {
    if w.Begin? {
      var k := Key(Infrastructure, w.ns, w.name);
      assert k in c.infras.objs ==> Filed(c.infras, k, c.infras.objs[k]);
    }
  }

  lemma InfraSeen(h: seq<Store>, views: Views, a: Agent, infra: Object)
    requires Coherent(h) && AgentOk(h, a) && ValidViews(views, |h|) && !a.at.Finished?
    requires if a.at.Begin? then a.key in h[views.infras].objs && infra == h[views.infras].objs[a.key]
             else infra == a.at.infra
    ensures KeyOf(Infrastructure, infra) == a.key && Seen(h, Infrastructure, infra)
  {
    if a.at.Begin? {
      assert Filed(h[views.infras], a.key, infra);
      StoredIsSeen(h, views.infras, a.key);
    }
  }

  // The update path is entered only by a worker that found its own main
  // Deployment in its cache, or was on it already.
  lemma UpdatePathEntry(s: Store, c: Caches, w: Worker, fault: Fault)
    requires CachesOk(c) && HoldsInfra(w) && WellFormed(s)
    ensures var next := Advance(s, c, w, fault).worker;
            next.UpdateNamespace? || next.UpdateItem? || next.UpdateMain? ==>
              || w.UpdateNamespace? || w.UpdateItem?
              || (w.Begin? && var k := Key(Deployment, next.infra.ns, next.infra.name);
                              k in c.deployments.objs && ControlledBy(c.deployments.objs[k], next.infra)
                              && next.infra.body.wanted.Some?)
  {
    if w.CreateItem? {
      BundleShape(w.infra.body.infraKind);
      ItemFits(w.infra, w.item);
    }
  }

  lemma CreatePathEntry(s: Store, c: Caches, w: Worker, fault: Fault)
    requires CachesOk(c) && HoldsInfra(w) && WellFormed(s)
    ensures var p := Advance(s, c, w, fault);
            p.worker.CreateItem? ==>
              || (w.CreateNamespace? && p.worker.item == 0)
              || (&& w.CreateItem? && p.worker.item == w.item + 1
                  && Bundle(w.infra.body.infraKind)[w.item] in p.store.objs)
  {
    if w.CreateItem? {
      ItemFits(w.infra, w.item);
    }
  }

  lemma CreatePathProgress(s: Store, c: Caches, w: Worker, fault: Fault)
    requires CachesOk(c) && HoldsInfra(w) && WellFormed(s) && Progressed(s, w)
    requires var p := Advance(s, c, w, fault); p.worker.CreateItem? && HoldsInfra(p.worker) && Keeps(s, p.store)
    ensures var p := Advance(s, c, w, fault); Progressed(p.store, p.worker)
  {
    var p := Advance(s, c, w, fault);
    InfraIsKept(s, c, w, fault);
    CreatePathEntry(s, c, w, fault);
    if w.CreateItem? {
      ReachedStays(s, p.store, w.infra.body.infraKind, w.item);
    }
  }

  lemma UpdateItemEntry(s: Store, c: Caches, w: Worker, fault: Fault)
    requires CachesOk(c) && HoldsInfra(w) && WellFormed(s)
    ensures var p := Advance(s, c, w, fault);
            p.worker.UpdateItem? ==>
              || (w.UpdateNamespace? && p.worker.item == UPDATE_FROM && w.infra.body.infraKind != Dashboard)
              || (w.UpdateItem? && p.worker.item == w.item + 1 && w.item < |Bundle(w.infra.body.infraKind)|
                  && Bundle(w.infra.body.infraKind)[w.item] in p.store.objs)
  {
    if w.UpdateItem? {
      BundleShape(w.infra.body.infraKind);
      ItemFits(w.infra, w.item);
      assert ItemShaped(w.infra.body.infraKind, w.item);
    }
  }

  lemma MainEntry(s: Store, c: Caches, w: Worker, fault: Fault)
    requires CachesOk(c) && HoldsInfra(w) && WellFormed(s)
    ensures Advance(s, c, w, fault).worker.UpdateMain? ==> w.UpdateNamespace? && w.infra.body.infraKind == Dashboard
  {
  }

  lemma UpdatePathProgress(s: Store, c: Caches, w: Worker, fault: Fault)
    requires CachesOk(c) && HoldsInfra(w) && WellFormed(s) && Progressed(s, w)
    requires var p := Advance(s, c, w, fault);
             OnUpdatePath(p.worker) && HoldsInfra(p.worker) && Evolves(s, p.store) && Keeps(s, p.store)
    requires w.Begin? ==> EntrySound(s, Advance(s, c, w, fault).worker.infra)
    ensures var p := Advance(s, c, w, fault); Progressed(p.store, p.worker)
  {
    var p := Advance(s, c, w, fault);
    var kind := p.worker.infra.body.infraKind;
    InfraIsKept(s, c, w, fault);
    UpdatePathEntry(s, c, w, fault);
    if p.worker.UpdateItem? {
      BundleShape(kind);
      UpdateItemEntry(s, c, w, fault);
      ReachedStays(s, p.store, kind, if w.UpdateItem? then w.item else UPDATE_FROM);
    } else {
      MainEntry(s, c, w, fault);
      EntryStaysSound(s, p.store, p.worker.infra);
    }
  }

  lemma ActProgresses(w: World, id: nat, views: Views, fault: Fault)
    requires Inv(w) && Typed(w) && id in w.agents && ValidViews(views, |w.history|)
    requires EntersSoundly(w, Act(id, views, fault))
    requires HoldsInfra(Advance(Now(w), CachesAt(w.history, views), w.agents[id].at, fault).worker)
    ensures var p := Advance(Now(w), CachesAt(w.history, views), w.agents[id].at, fault);
            Progressed(p.store, p.worker)
  {
    var h, s, a, c := w.history, Now(w), w.agents[id], CachesAt(w.history, views);
    assert AgentOk(h, a);
    var p := Advance(s, c, a.at, fault);
    if p.worker.CreateItem? {
      ActEvolves(h, c, a, fault);
      CreatePathProgress(s, c, a.at, fault);
    } else if OnUpdatePath(p.worker) {
      ActEvolves(h, c, a, fault);
      StartsAtTheTop(c, a.at);
      UpdatePathProgress(s, c, a.at, fault);
    }
  }

  lemma StartsAtTheTop(c: Caches, w: Worker)
    requires CachesOk(c)
    ensures w.Begin? ==> !Start(c, w.ns, w.name).UpdateItem? && !Start(c, w.ns, w.name).UpdateMain?
  {
  }

  lemma NextIsSeen(h: seq<Store>, views: Views, a: Agent, fault: Fault)
    requires Coherent(h) && AgentOk(h, a) && HoldsInfra(a.at) && ValidViews(views, |h|)
    ensures var next := Advance(Last(h), CachesAt(h, views), a.at, fault).worker;
            && HoldsInfra(next) && (a.at.Begin? ==> !next.Begin?) && (next.Begin? ==> a.at.Begin?)
            && (!next.Finished? ==> KeyOf(Infrastructure, next.infra) == a.key && Seen(h, Infrastructure, next.infra))
  {
    var s, c := Last(h), CachesAt(h, views);
    AdvanceTerminates(s, c, a.at, fault);
    InfraIsKept(s, c, a.at, fault);
    var next := Advance(s, c, a.at, fault).worker;
    if !next.Finished? {
      InfraSeen(h, views, a, next.infra);
    }
  }

  lemma ActKeepsAgentOk(w: World, id: nat, views: Views, fault: Fault)
    requires Inv(w) && Typed(w) && id in w.agents && ValidViews(views, |w.history|)
    requires EntersSoundly(w, Act(id, views, fault))
    ensures var p := Advance(Now(w), CachesAt(w.history, views), w.agents[id].at, fault);
            AgentOk(w.history + [p.store], w.agents[id].(at := p.worker))
  {
    var a, c := w.agents[id], CachesAt(w.history, views);
    assert AgentOk(w.history, a);
    NextIsSeen(w.history, views, a, fault);
    ActProgresses(w, id, views, fault);
    var p := Advance(Now(w), c, a.at, fault);
    AgentOkFrom(w.history, p.store, Agent(a.key, p.worker));
  }

  lemma AgentOkFrom(h: seq<Store>, t: Store, a: Agent)
    requires HoldsInfra(a.at) && !a.at.Begin? && Progressed(t, a.at)
    requires !a.at.Finished? ==> KeyOf(Infrastructure, a.at.infra) == a.key && Seen(h, Infrastructure, a.at.infra)
    ensures AgentOk(h + [t], a)
  {
    if !a.at.Finished? {
      SeenStays(h, t, Infrastructure, a.at.infra);
    }
  }

  // What a step creates comes in its place: everything before it exists, and a
  // main Deployment completes its bundle.
  lemma NewObjectInPlace(s: Store, c: Caches, w: Worker, fault: Fault, kind: InfraKind, i: nat)
    requires CachesOk(c) && HoldsInfra(w) && WellFormed(s) && Progressed(s, w)
    requires Keeps(s, Advance(s, c, w, fault).store)
    requires Known(kind) && i < |Bundle(kind)| && !w.Begin? && !w.Finished?
    requires Bundle(kind)[i] in Advance(s, c, w, fault).store.objs && Bundle(kind)[i] !in s.objs
    ensures Reached(Advance(s, c, w, fault).store, kind, i)
    ensures Advance(s, c, w, fault).store.objs[Bundle(kind)[i]].owner == Some(w.infra.uid)
  {
    assert Bundle(kind)[i].kind != Namespace by {
      BundleShape(kind);
      assert ItemShaped(kind, i);
    }
    NewObject(s, c, w, fault, Bundle(kind)[i]);
    BundlesDisjoint(kind, i, w.infra.body.infraKind, w.item);
    ReachedStays(s, Advance(s, c, w, fault).store, kind, i);
  }

  lemma NewObjectsInPlace(s: Store, c: Caches, w: Worker, fault: Fault)
    requires CachesOk(c) && HoldsInfra(w) && WellFormed(s) && Progressed(s, w)
    requires Keeps(s, Advance(s, c, w, fault).store)
    ensures var t := Advance(s, c, w, fault).store;
            forall kind, i | Known(kind) && 0 <= i < |Bundle(kind)|
                             && Bundle(kind)[i] in t.objs && Bundle(kind)[i] !in s.objs ::
              Reached(t, kind, i)
  {
    var t := Advance(s, c, w, fault).store;
    forall kind, i | Known(kind) && 0 <= i < |Bundle(kind)| && Bundle(kind)[i] in t.objs && Bundle(kind)[i] !in s.objs
      ensures Reached(t, kind, i)
    {
      NewObjectInPlace(s, c, w, fault, kind, i);
    }
  }

  lemma AdvanceKeepsPrefixes(h: seq<Store>, c: Caches, a: Agent, fault: Fault, made: set<Uid>, made': set<Uid>)
    requires Coherent(h) && AgentOk(h, a) && CachesOk(c) && HoldsInfra(a.at) && PrefixesHold(Last(h), made)
    requires forall u | u in made' && u < Last(h).nextUid :: u in made
    ensures PrefixesHold(Advance(Last(h), c, a.at, fault).store, made')
  {
    ActEvolves(h, c, a, fault);
    NewObjectsInPlace(Last(h), c, a.at, fault);
    PrefixesStay(Last(h), Advance(Last(h), c, a.at, fault).store, made, made');
  }

  lemma ActKeepsPrefixes(w: World, id: nat, views: Views, fault: Fault)
    requires Inv(w) && Typed(w) && id in w.agents && ValidViews(views, |w.history|)
    ensures var w' := ActOn(w, id, views, fault); PrefixesHold(Now(w'), w'.made)
  {
    var a, c, made' := w.agents[id], CachesAt(w.history, views), ActOn(w, id, views, fault).made;
    AdvanceKeepsPrefixes(w.history, c, a, fault, w.made, made');
  }

  lemma NewMainsAreComplete(s: Store, c: Caches, w: Worker, fault: Fault)
    requires CachesOk(c) && HoldsInfra(w) && WellFormed(s) && Progressed(s, w)
    requires Keeps(s, Advance(s, c, w, fault).store)
    ensures var t := Advance(s, c, w, fault).store;
            forall kind | Known(kind) && MainKey(kind) in t.objs && MainKey(kind) !in s.objs :: Complete(t, kind)
  {
    var t := Advance(s, c, w, fault).store;
    forall kind | Known(kind) && MainKey(kind) in t.objs && MainKey(kind) !in s.objs
      ensures Complete(t, kind)
    {
      BundleShape(kind);
      NewObjectInPlace(s, c, w, fault, kind, |Bundle(kind)| - 1);
    }
  }

  lemma ActKeepsMains(w: World, id: nat, views: Views, fault: Fault)
    requires Inv(w) && Typed(w) && id in w.agents && ValidViews(views, |w.history|)
    ensures var w' := ActOn(w, id, views, fault); MainsBacked(w'.history, Now(w'))
  {
    var s, a, c := Now(w), w.agents[id], CachesAt(w.history, views);
    assert AgentOk(w.history, a);
    ActEvolves(w.history, c, a, fault);
    var t := Advance(s, c, a.at, fault).store;
    NewMainsAreComplete(s, c, a.at, fault);
    MainsStayBacked(w.history, t);
  }

  lemma ActKeepsOwnersOld(w: World, id: nat, views: Views, fault: Fault)
    requires Inv(w) && Typed(w) && id in w.agents && ValidViews(views, |w.history|)
    ensures OwnersOld(Now(ActOn(w, id, views, fault)))
  {
    var h, s, a, c := w.history, Now(w), w.agents[id], CachesAt(w.history, views);
    assert AgentOk(h, a);
    ActEvolves(h, c, a, fault);
    var t := Advance(s, c, a.at, fault).store;
    forall k | k in t.objs && t.objs[k].owner.Some? && t.objs[k].uid >= s.nextUid
      ensures t.objs[k].owner.value < s.nextUid
    {
      NewKeyNewUid(s, t, k);
      NewOwner(h, c, a, fault, k);
    }
    OwnersStayOld(s, t);
  }

  lemma NewOwner(h: seq<Store>, c: Caches, a: Agent, fault: Fault, k: Key)
    requires Coherent(h) && AgentOk(h, a) && CachesOk(c) && HoldsInfra(a.at)
    requires k in Advance(Last(h), c, a.at, fault).store.objs && k !in Last(h).objs
    ensures var o := Advance(Last(h), c, a.at, fault).store.objs[k]; o.owner.Some? ==> o.owner.value < Last(h).nextUid
  {
    NewOwnerIsWorkers(Last(h), c, a.at, fault, k);
    if !a.at.Begin? && !a.at.Finished? {
      SeenFits(h, a.at.infra);
    }
  }

  lemma NewOwnerIsWorkers(s: Store, c: Caches, w: Worker, fault: Fault, k: Key)
    requires CachesOk(c) && HoldsInfra(w) && WellFormed(s) && Progressed(s, w)
    requires k in Advance(s, c, w, fault).store.objs && k !in s.objs
    ensures var o := Advance(s, c, w, fault).store.objs[k];
            !w.Begin? && !w.Finished? && (o.owner.Some? ==> o.owner.value == w.infra.uid)
  {
    NewObject(s, c, w, fault, k);
  }

  lemma ActKeepsAgents(w: World, id: nat, views: Views, fault: Fault)
    requires Inv(w) && Typed(w) && id in w.agents && ValidViews(views, |w.history|)
    requires EntersSoundly(w, Act(id, views, fault))
    ensures var w' := ActOn(w, id, views, fault);
            forall i | i in w'.agents :: AgentOk(w'.history, w'.agents[i])
  {
    var w', c := ActOn(w, id, views, fault), CachesAt(w.history, views);
    assert AgentOk(w.history, w.agents[id]);
    ActEvolves(w.history, c, w.agents[id], fault);
    ActKeepsAgentOk(w, id, views, fault);
    forall i | i in w'.agents && i != id
      ensures AgentOk(w'.history, w'.agents[i])
    {
      AgentOkStays(w.history, Advance(Now(w), c, w.agents[id].at, fault).store, w.agents[i]);
    }
  }

  lemma ActKeepsInv(w: World, id: nat, views: Views, fault: Fault)
    requires Inv(w) && Typed(w) && id in w.agents && ValidViews(views, |w.history|)
    requires EntersSoundly(w, Act(id, views, fault))
    ensures Inv(ActOn(w, id, views, fault))
  {
    var agent, c := w.agents[id], CachesAt(w.history, views);
    var t := Advance(Now(w), c, agent.at, fault).store;
    assert AgentOk(w.history, agent);
    ActEvolves(w.history, c, agent, fault);
    CoherentExtends(w.history, t);
    RetainedExtends(w.history, t);
    ActKeepsPrefixes(w, id, views, fault);
    ActKeepsMains(w, id, views, fault);
    ActKeepsOwnersOld(w, id, views, fault);
    ActKeepsAgents(w, id, views, fault);
    MadeStaysOld(w, id, views, fault);
  }

  lemma MadeStaysOld(w: World, id: nat, views: Views, fault: Fault)
    requires Inv(w) && Typed(w) && id in w.agents && ValidViews(views, |w.history|)
    ensures var w' := ActOn(w, id, views, fault); forall u | u in w'.made :: u < Now(w').nextUid
  {
    assert AgentOk(w.history, w.agents[id]);
    ActEvolves(w.history, CachesAt(w.history, views), w.agents[id], fault);
  }

  lemma ExternalKeepsInv(w: World, t: Store)
    requires Inv(w) && WellFormed(t) && Evolves(Now(w), t) && Keeps(Now(w), t) && Benign(w.history, t)
    ensures Inv(w.(history := w.history + [t]))
  {
    ExternalKeepsBundles(w, t);
    CoherentExtends(w.history, t);
    RetainedExtends(w.history, t);
    forall i | i in w.agents
      ensures AgentOk(w.history + [t], w.agents[i])
    {
      AgentOkStays(w.history, t, w.agents[i]);
    }
  }

  lemma StepKeepsInv(w: World, a: Action, w': World)
    requires Inv(w) && Typed(w) && Step(w, a, w') && EntersSoundly(w, a)
    ensures Inv(w')
  {
    match a
    case Spawn(id, ns, name) =>
    case Die(id) =>
    case Act(id, views, fault) => ActKeepsInv(w, id, views, fault);
    case External(t) => ExternalKeepsInv(w, t);
  }

  lemma NewMainIsNoInfras(w: World, t: Store, kind: InfraKind)
    requires Inv(w) && WellFormed(t) && Evolves(Now(w), t) && Keeps(Now(w), t) && Benign(w.history, t)
    requires Known(kind)
    requires MainKey(kind) in t.objs && MainKey(kind) !in Now(w).objs && t.objs[MainKey(kind)].owner.Some?
    ensures !IsInfraUid(w.history + [t], t.objs[MainKey(kind)].owner.value)
  {
    NewKeyNewUid(Now(w), t, MainKey(kind));
    var uid := t.objs[MainKey(kind)].owner.value;
    if IsInfraUid(w.history + [t], uid) {
      InfraUidOld(w.history, t, uid);
    }
  }

  lemma ExternalKeepsBundles(w: World, t: Store)
    requires Inv(w) && WellFormed(t) && Evolves(Now(w), t) && Keeps(Now(w), t) && Benign(w.history, t)
    ensures OwnersOld(t) && PrefixesHold(t, w.made) && MainsBacked(w.history + [t], t)
  {
    var s := Now(w);
    OwnersStayOld(s, t);
    forall kind, i | Known(kind) && 0 <= i < |Bundle(kind)| && Bundle(kind)[i] in t.objs && Bundle(kind)[i] !in s.objs
      ensures t.objs[Bundle(kind)[i]].uid !in w.made
    {
      NewKeyNewUid(s, t, Bundle(kind)[i]);
    }
    PrefixesStay(s, t, w.made, w.made);
    forall kind | Known(kind) && MainKey(kind) in t.objs && MainKey(kind) !in s.objs
                  && t.objs[MainKey(kind)].owner.Some?
      ensures !IsInfraUid(w.history + [t], t.objs[MainKey(kind)].owner.value)
    {
      NewMainIsNoInfras(w, t, kind);
    }
    MainsStayBacked(w.history, t);
  }

  lemma InitInv(w: World)
    requires Init(w)
    ensures Inv(w)
  {
    assert Now(w) == w.history[0];
    NothingMade(Now(w));
    RetainedOne(w.history);
  }

  lemma NothingMade(s: Store)
    ensures PrefixesHold(s, {})
  {
  }

  lemma {:induction false} RunKeepsInv(run: seq<World>, acts: seq<Action>, n: nat)
    requires IsSoundRun(run, acts) && n < |run|
    ensures Inv(run[n]) && Typed(run[n])
  {
    if n > 0 {
      RunKeepsInv(run, acts, n - 1);
      StepKeepsInv(run[n - 1], acts[n - 1], run[n]);
    } else {
      InitInv(run[0]);
    }
    InvIsTyped(run[n]);
  }

  // ---- Main results ----------------------------------------------------------

  // In every state of every run, whatever has failed and been retried on the way:
  // what workers created of a bundle sits on top of everything that precedes it.
  lemma BundlesGrowInOrder(run: seq<World>, acts: seq<Action>, n: nat, kind: InfraKind, i: nat)
    requires IsSoundRun(run, acts) && n < |run| && 0 < |run[n].history|
    requires Known(kind) && i < |Bundle(kind)| && Bundle(kind)[i] in Now(run[n]).objs
    requires Now(run[n]).objs[Bundle(kind)[i]].uid in run[n].made
    ensures forall j | 0 <= j < i :: Bundle(kind)[j] in Now(run[n]).objs
  {
    RunKeepsInv(run, acts, n);
    assert Reached(Now(run[n]), kind, i);
  }

  // So a main Deployment controlled by an Infrastructure stands for the whole bundle.
  lemma ControlledMainImpliesBundle(run: seq<World>, acts: seq<Action>, n: nat, infra: Object)
    requires IsSoundRun(run, acts) && n < |run| && 0 < |run[n].history|
    requires Seen(run[n].history, Infrastructure, infra) && IsInfra(infra) && Known(infra.body.infraKind)
    requires var m := MainKey(infra.body.infraKind); m in Now(run[n]).objs && ControlledBy(Now(run[n]).objs[m], infra)
    ensures Complete(Now(run[n]), infra.body.infraKind)
  {
    RunKeepsInv(run, acts, n);
    assert IsInfraUid(run[n].history, infra.uid);
  }

  // Ownership, too, is never disturbed.
  lemma ControllersNeverChange(run: seq<World>, acts: seq<Action>, n: nat, i: nat, j: nat, k: Key, m: Key)
    requires IsSoundRun(run, acts) && n < |run| && i < |run[n].history| && j < |run[n].history|
    requires k in run[n].history[i].objs && m in run[n].history[j].objs
    requires run[n].history[i].objs[k].uid == run[n].history[j].objs[m].uid
    ensures k == m && run[n].history[i].objs[k].owner == run[n].history[j].objs[m].owner
  {
    RunKeepsInv(run, acts, n);
  }

  // ---- Runs that are sound ------------------------------------------------------

  // An Infrastructure that asks for a number of replicas and bears the name of its
  // bundle's main Deployment cannot but enter soundly: what it finds under its name
  // is that Deployment.

  ghost predicate IsTameRun(run: seq<World>, acts: seq<Action>) {
    && IsRun(run, acts)
    && AllTame(run[0].history[0])
    && forall i | 0 <= i < |acts| && acts[i].External? :: AllTame(acts[i].store)
  }

  lemma ActKeepsTame(h: seq<Store>, c: Caches, a: Agent, fault: Fault)
    requires Coherent(h) && AgentOk(h, a) && CachesOk(c) && HoldsInfra(a.at)
    requires forall i | 0 <= i < |h| :: AllTame(h[i])
    ensures AllTame(Advance(Last(h), c, a.at, fault).store)
  {
    var t := Advance(Last(h), c, a.at, fault).store;
    assert AllTame(h[|h| - 1]);
    if a.at.UpdateStatus? {
      SeenIsTame(h, a.at.infra);
    }
    forall k | k in t.objs && k.kind == Infrastructure
      ensures Tame(t.objs[k])
    {
      InfraWrites(Last(h), c, a.at, fault, k);
    }
  }

  lemma SeenIsTame(h: seq<Store>, infra: Object)
    requires Coherent(h) && Seen(h, Infrastructure, infra)
    requires forall i | 0 <= i < |h| :: AllTame(h[i])
    ensures Tame(infra)
  {
    var k := KeyOf(Infrastructure, infra);
    var i :| 0 <= i < |h| && k in h[i].objs && h[i].objs[k] == infra;
    assert AllTame(h[i]);
  }

  // A cached Deployment of its name under a tame Infrastructure's control is still
  // there, and with it the bundle.
  lemma CachedMainIsSound(w: World, i: nat, infra: Object)
    requires Inv(w) && i < |w.history| && Seen(w.history, Infrastructure, infra) && Tame(infra)
    requires Known(infra.body.infraKind) && infra.body.wanted.Some?
    requires var k := Key(Deployment, infra.ns, infra.name);
             k in w.history[i].objs && ControlledBy(w.history[i].objs[k], infra)
    ensures EntrySound(Now(w), infra)
  {
    var h, k := w.history, Key(Deployment, infra.ns, infra.name);
    StoredIsSeen(h, i, k);
    assert Filed(h[i], k, h[i].objs[k]);
    SeenIsPresent(h, Deployment, h[i].objs[k]);
    assert IsInfraUid(h, infra.uid);
    BundleShape(infra.body.infraKind);
    assert Complete(Now(w), infra.body.infraKind);
  }

  lemma TameEntersSoundly(w: World, a: Action)
    requires Inv(w) && Typed(w) && forall i | 0 <= i < |w.history| :: AllTame(w.history[i])
    ensures EntersSoundly(w, a)
  {
    if a.Act? && a.id in w.agents && ValidViews(a.views, |w.history|) && w.agents[a.id].at.Begin? {
      var c, at := CachesAt(w.history, a.views), w.agents[a.id].at;
      var next := Start(c, at.ns, at.name);
      assert AgentOk(w.history, w.agents[a.id]);
      if next.UpdateNamespace? {
        NextIsSeen(w.history, a.views, w.agents[a.id], NoFault);
        UpdatePathEntry(Now(w), c, at, NoFault);
        SeenIsTame(w.history, next.infra);
        CachedMainIsSound(w, a.views.deployments, next.infra);
      }
    }
  }

  lemma StepKeepsTame(w: World, a: Action, w': World)
    requires Inv(w) && Typed(w) && Step(w, a, w') && forall i | 0 <= i < |w.history| :: AllTame(w.history[i])
    requires a.External? ==> AllTame(a.store)
    ensures forall i | 0 <= i < |w'.history| :: AllTame(w'.history[i])
  {
    if a.Act? {
      assert AgentOk(w.history, w.agents[a.id]);
      ActKeepsTame(w.history, CachesAt(w.history, a.views), w.agents[a.id], a.fault);
    }
  }

  lemma {:induction false} TamePrefix(run: seq<World>, acts: seq<Action>, n: nat)
    requires IsTameRun(run, acts) && n < |run|
    ensures Inv(run[n]) && Typed(run[n])
    ensures forall i | 0 <= i < |run[n].history| :: AllTame(run[n].history[i])
  {
    if n == 0 {
      InitInv(run[0]);
    } else {
      TamePrefix(run, acts, n - 1);
      TameEntersSoundly(run[n - 1], acts[n - 1]);
      StepKeepsInv(run[n - 1], acts[n - 1], run[n]);
      StepKeepsTame(run[n - 1], acts[n - 1], run[n]);
    }
    InvIsTyped(run[n]);
  }

  // So the runs among Infrastructures like those are sound.
  lemma TameRunsAreSound(run: seq<World>, acts: seq<Action>)
    requires IsTameRun(run, acts)
    ensures IsSoundRun(run, acts)
  {
    forall i | 0 <= i < |acts|
      ensures EntersSoundly(run[i], acts[i])
    {
      TamePrefix(run, acts, i);
      TameEntersSoundly(run[i], acts[i]);
    }
  }
}
