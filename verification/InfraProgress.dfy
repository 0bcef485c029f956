/**
 Convergence of Infrastructures from every reachable state.

 A run starts where every Infrastructure bears the name of its bundle's main
 Deployment, and every such Deployment there is belongs to the Infrastructure of
 its name. Workers interleave with arbitrarily stale caches, failing calls and
 deaths; others delete nothing, keep to those names and put up no main Deployment.
 In every state one undisturbed sync of any Infrastructure succeeds.
 */
module InfraProgress {
  import opened Options
  import opened KubeApi
  import opened InfraSync
  import opened InfraWorld
  import opened InfraConvergence

  ghost predicate AllCanonical(s: Store) {
    forall k | k in s.objs && k.kind == Infrastructure :: Canonical(s.objs[k])
  }

  function OwnerKey(kind: InfraKind): Key
    requires Known(kind)
  {
    Key(Infrastructure, MainKey(kind).ns, MainKey(kind).name)
  }

  // A main Deployment belongs to the Infrastructure of its name.
  ghost predicate MainOwned(s: Store, kind: InfraKind)
    requires Known(kind)
  {
    MainKey(kind) in s.objs ==> OwnerKey(kind) in s.objs && ControlledBy(s.objs[MainKey(kind)], s.objs[OwnerKey(kind)])
  }

  ghost predicate MainsOwned(s: Store) { forall kind | Known(kind) :: MainOwned(s, kind) }

  ghost predicate IsNamedRun(run: seq<World>, acts: seq<Action>) {
    && IsRun(run, acts)
    && AllCanonical(run[0].history[0]) && MainsOwned(run[0].history[0])
    && forall i | 0 <= i < |acts| && acts[i].External? && 0 < |run[i].history| ::
         && AllCanonical(acts[i].store)
         && forall kind | Known(kind) && MainKey(kind) in acts[i].store.objs :: MainKey(kind) in Now(run[i]).objs
  }

  ghost predicate Named(h: seq<Store>) {
    0 < |h| && MainsOwned(Last(h)) && forall i | 0 <= i < |h| :: AllCanonical(h[i])
  }

  lemma SeenIsCanonical(h: seq<Store>, infra: Object)
    requires Seen(h, Infrastructure, infra) && forall i | 0 <= i < |h| :: AllCanonical(h[i])
    ensures Canonical(infra)
  {
    var k := KeyOf(Infrastructure, infra);
    var i :| 0 <= i < |h| && k in h[i].objs && h[i].objs[k] == infra;
    assert AllCanonical(h[i]);
  }

  lemma CanonicalIsTame(h: seq<Store>)
    requires forall i | 0 <= i < |h| :: AllCanonical(h[i])
    ensures forall i | 0 <= i < |h| :: AllTame(h[i])
  {
    forall i | 0 <= i < |h|
      ensures AllTame(h[i])
    {
      assert AllCanonical(h[i]);
    }
  }

  lemma ActKeepsCanonical(h: seq<Store>, c: Caches, a: Agent, fault: Fault)
    requires 0 < |h| && WellFormed(Last(h)) && AgentOk(h, a) && CachesOk(c) && HoldsInfra(a.at)
    requires forall i | 0 <= i < |h| :: AllCanonical(h[i])
    ensures AllCanonical(Advance(Last(h), c, a.at, fault).store)
  {
    var t := Advance(Last(h), c, a.at, fault).store;
    assert AllCanonical(h[|h| - 1]);
    if a.at.UpdateStatus? {
      SeenIsCanonical(h, a.at.infra);
    }
    forall k | k in t.objs && k.kind == Infrastructure
      ensures Canonical(t.objs[k])
    {
      InfraWrites(Last(h), c, a.at, fault, k);
    }
  }

  // What was owned stays owned.
  lemma OwnedStays(s: Store, t: Store, kind: InfraKind)
    requires Known(kind) && MainOwned(s, kind) && MainKey(kind) in s.objs
    requires WellFormed(s) && Evolves(s, t) && Keeps(s, t)
    ensures MainOwned(t, kind)
  {
    OwnerStays(s, t, MainKey(kind));
    OwnerStays(s, t, OwnerKey(kind));
  }

  // A main Deployment that a worker puts up is of the worker's own kind, and its own.
  lemma NewMain(s: Store, c: Caches, w: Worker, fault: Fault, kind: InfraKind)
    requires CachesOk(c) && HoldsInfra(w) && WellFormed(s) && Known(kind)
    requires MainKey(kind) in Advance(s, c, w, fault).store.objs && MainKey(kind) !in s.objs
    ensures !w.Begin? && !w.Finished? && w.infra.body.infraKind == kind
    ensures Advance(s, c, w, fault).store.objs[MainKey(kind)].owner == Some(w.infra.uid)
  {
    BundleShape(kind);
    NewObject(s, c, w, fault, MainKey(kind));
    BundlesDisjoint(kind, |Bundle(kind)| - 1, w.infra.body.infraKind, w.item);
  }

  lemma ActKeepsMainsOwned(h: seq<Store>, c: Caches, a: Agent, fault: Fault)
    requires Coherent(h) && Retained(h) && AgentOk(h, a) && CachesOk(c) && HoldsInfra(a.at)
    requires MainsOwned(Last(h)) && forall i | 0 <= i < |h| :: AllCanonical(h[i])
    ensures MainsOwned(Advance(Last(h), c, a.at, fault).store)
  {
    var s, t := Last(h), Advance(Last(h), c, a.at, fault).store;
    ActEvolves(h, c, a, fault);
    forall kind | Known(kind)
      ensures MainOwned(t, kind)
    {
      if MainKey(kind) in s.objs {
        OwnedStays(s, t, kind);
      } else if MainKey(kind) in t.objs {
        NewMain(s, c, a.at, fault, kind);
        SeenIsCanonical(h, a.at.infra);
        SeenIsPresent(h, Infrastructure, a.at.infra);
      }
    }
  }

  lemma AllCanonicalSoFar(h: seq<Store>, t: Store)
    requires AllCanonical(t) && forall i | 0 <= i < |h| :: AllCanonical(h[i])
    ensures forall i | 0 <= i < |h + [t]| :: AllCanonical((h + [t])[i])
  {
  }

  lemma ActKeepsNamed(w: World, id: nat, views: Views, fault: Fault)
    requires Inv(w) && Named(w.history) && Typed(w) && id in w.agents && ValidViews(views, |w.history|)
    ensures Named(ActOn(w, id, views, fault).history)
  {
    var c, a := CachesAt(w.history, views), w.agents[id];
    assert AgentOk(w.history, a);
    ActKeepsMainsOwned(w.history, c, a, fault);
    ActKeepsCanonical(w.history, c, a, fault);
    AllCanonicalSoFar(w.history, Advance(Now(w), c, a.at, fault).store);
  }

  lemma ExternalKeepsNamed(w: World, t: Store)
    requires Named(w.history) && WellFormed(Now(w))
    requires WellFormed(t) && Evolves(Now(w), t) && Keeps(Now(w), t) && AllCanonical(t)
    requires forall kind | Known(kind) && MainKey(kind) in t.objs :: MainKey(kind) in Now(w).objs
    ensures Named(w.history + [t])
  {
    forall kind | Known(kind) && MainKey(kind) in t.objs
      ensures MainOwned(t, kind)
    {
      OwnedStays(Now(w), t, kind);
    }
    AllCanonicalSoFar(w.history, t);
  }

  lemma StepKeepsNamed(w: World, a: Action, w': World)
    requires Inv(w) && Named(w.history) && Typed(w) && Step(w, a, w')
    requires a.External? ==> AllCanonical(a.store)
    requires a.External? ==> forall kind | Known(kind) && MainKey(kind) in a.store.objs :: MainKey(kind) in Now(w).objs
    ensures Inv(w') && Named(w'.history)
  {
    CanonicalIsTame(w.history);
    TameEntersSoundly(w, a);
    StepKeepsInv(w, a, w');
    match a
    case Spawn(id, ns, name) =>
    case Die(id) =>
    case Act(id, views, fault) => ActKeepsNamed(w, id, views, fault);
    case External(t) => ExternalKeepsNamed(w, t);
  }

  lemma InitNamed(s: Store)
    requires AllCanonical(s) && MainsOwned(s)
    ensures Named([s])
  {
    assert Last([s]) == s;
    forall kind | Known(kind)
      ensures MainOwned(Last([s]), kind)
    {
      assert MainOwned(s, kind);
    }
  }

  lemma {:induction false} RunKeepsNamed(run: seq<World>, acts: seq<Action>, n: nat)
    requires IsNamedRun(run, acts) && n < |run|
    ensures Inv(run[n]) && Typed(run[n]) && Named(run[n].history)
  {
    if n == 0 {
      InitInv(run[0]);
      InitNamed(run[0].history[0]);
      assert run[0].history == [run[0].history[0]];
    } else {
      RunKeepsNamed(run, acts, n - 1);
      StepKeepsNamed(run[n - 1], acts[n - 1], run[n]);
    }
    InvIsTyped(run[n]);
  }

  // Whatever has gone on before, one undisturbed sync of any Infrastructure there is,
  // of a known kind, succeeds and leaves nothing to do.
  lemma EveryStateSyncs(run: seq<World>, acts: seq<Action>, n: nat, ns: string, name: string)
    requires IsNamedRun(run, acts) && n < |run| && 0 < |run[n].history|
    requires Key(Infrastructure, ns, name) in Now(run[n]).objs && name != ""
    requires var o := InfraAt(Now(run[n]), ns, name); IsInfra(o) ==> Known(o.body.infraKind)
    ensures var s := Now(run[n]);
            && HasInfra(s, ns, name)
            && var e := Sync(s, FreshCaches(s), ns, name, NO_FAULTS);
               e.outcome == Synced && Settled(e.store, ns, name) && OthersUntouched(s, e.store, ns, name)
  {
    var s := Now(run[n]);
    RunKeepsNamed(run, acts, n);
    assert AllCanonical(run[n].history[|run[n].history| - 1]);
    assert Filed(s, Key(Infrastructure, ns, name), InfraAt(s, ns, name));
    InfraFacts(s, ns, name);
    BundleShape(InfraAt(s, ns, name).body.infraKind);
    assert MainOwned(s, InfraAt(s, ns, name).body.infraKind);
    SyncSucceedsIff(s, ns, name);
  }
}
