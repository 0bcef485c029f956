/**
 The results about runs of the user controller, told by the stores alone: what a
 worker's step adds to the store, at any point of a run, and what is there with it
 from then on.
 */
module UserCreations {
  import opened Options
  import opened KubeApi
  import opened Common
  import opened UserSync
  import opened UserWorld

  // The i-th action is a worker's step, and afterwards there is an object under k.
  ghost predicate Creates(run: seq<World>, acts: seq<Action>, i: nat, k: Key)
    requires |run| == |acts| + 1 && i < |acts|
  {
    && acts[i].Act?
    && 0 < |run[i].history| && 0 < |run[i + 1].history|
    && k in Now(run[i + 1]).objs && k !in Now(run[i]).objs
  }

  // The i-th action is a worker's step, and afterwards the User under k lists the ID.
  ghost predicate Lists(run: seq<World>, acts: seq<Action>, i: nat, k: Key, id: string)
    requires |run| == |acts| + 1 && i < |acts|
  {
    && acts[i].Act? && k.kind == User
    && 0 < |run[i].history| && 0 < |run[i + 1].history|
    && k in Now(run[i]).objs && k in Now(run[i + 1]).objs
    && IsUser(Now(run[i]).objs[k]) && IsUser(Now(run[i + 1]).objs[k])
    && id !in Now(run[i]).objs[k].body.principalIDs && id in Now(run[i + 1]).objs[k].body.principalIDs
  }

  // A step either leaves the keys and the numbers given out alone, or adds one object
  // under the next number.
  lemma AddsOne(s: Store, c: Caches, w: Worker, fault: Fault, k: Key)
    requires CachesOk(c) && HoldsUser(w)
    ensures var t := Advance(s, c, w, fault).store;
            && (t.nextUid == s.nextUid ==> t.objs.Keys == s.objs.Keys)
            && (k in t.objs && k !in s.objs ==> t.objs[k].uid == s.nextUid < t.nextUid)
  {
  }

  lemma CreationIsRecorded(run: seq<World>, acts: seq<Action>, i: nat, k: Key)
    requires IsRun(run, acts) && i < |acts| && Creates(run, acts, i, k)
    ensures acts[i].id in run[i].agents
    ensures var uid := Now(run[i + 1]).objs[k].uid;
            uid in run[i + 1].made && run[i + 1].made[uid] == run[i].agents[acts[i].id].key
  {
    RunKeepsInv(run, acts, i);
    var w, a := run[i], acts[i];
    AddsOne(Now(w), CachesAt(w.history, a.views), w.agents[a.id].at, a.fault, k);
  }

  lemma {:induction false} RecordsGrow(run: seq<World>, acts: seq<Action>, i: nat, n: nat)
    requires IsRun(run, acts) && i <= n < |run|
    ensures run[i].made.Keys <= run[n].made.Keys && run[i].appended <= run[n].appended
  {
    if i < n {
      RecordsGrow(run, acts, i, n - 1);
      RunKeepsInv(run, acts, n - 1);
      assert Step(run[n - 1], acts[n - 1], run[n]);
    }
  }

  // Conversely, nothing is recorded that no step of a worker has added.
  lemma {:induction false} RecordedIsCreated(run: seq<World>, acts: seq<Action>, n: nat, uid: Uid)
    returns (i: nat, k: Key)
    requires IsRun(run, acts) && n < |run| && uid in run[n].made
    ensures i < n && Creates(run, acts, i, k) && Now(run[i + 1]).objs[k].uid == uid
  {
    assert Init(run[0]);
    assert n > 0;
    RunKeepsInv(run, acts, n - 1);
    if uid in run[n - 1].made {
      i, k := RecordedIsCreated(run, acts, n - 1, uid);
    } else {
      i := n - 1;
      k := StepRecords(run[i], acts[i], run[n], uid);
    }
  }

  lemma StepRecords(w: World, a: Action, w': World, uid: Uid) returns (k: Key)
    requires Typed(w) && Step(w, a, w') && uid in w'.made && uid !in w.made
    ensures a.Act? && 0 < |w'.history| && k in Now(w').objs && k !in Now(w).objs && Now(w').objs[k].uid == uid
  {
    k := AddedBy(Now(w), CachesAt(w.history, a.views), w.agents[a.id].at, a.fault);
  }

  lemma AddedBy(s: Store, c: Caches, w: Worker, fault: Fault) returns (k: Key)
    requires CachesOk(c) && HoldsUser(w) && Advance(s, c, w, fault).store.nextUid != s.nextUid
    ensures var t := Advance(s, c, w, fault).store; k in t.objs && k !in s.objs && t.objs[k].uid == s.nextUid
  {
    match w
    case EnsureNamespace(_) => k := KeyOf(Namespace, NamespaceObject());
    case CreatePrincipal(user) => k := KeyOf(Principal, OwnedPrincipal(user));
    case CreateRole(user, _, _) => k := KeyOf(ClusterRole, OwnedClusterObject(user));
    case CreateBinding(user, _, _) => k := KeyOf(ClusterRoleBinding, OwnedClusterObject(user));
    case _ =>
  }

  // A step that makes a User list an ID works for that User.
  lemma ListingIsRecorded(run: seq<World>, acts: seq<Action>, i: nat, k: Key, id: string)
    requires IsRun(run, acts) && i < |acts| && Lists(run, acts, i, k, id)
    ensures Credit(Now(run[i]).objs[k].uid, k.name, id) in run[i + 1].appended
  {
    RunKeepsInv(run, acts, i);
    var w, a := run[i], acts[i];
    var agent := w.agents[a.id];
    assert AgentOk(w.history, agent);
    OnlyItsUserLists(Now(w), CachesAt(w.history, a.views), agent.at, a.fault, k, id);
    SwapHitsWhatWasRead(w.history, User, agent.at.user, k);
    assert Filed(Now(w), k, Now(w).objs[k]);
  }

  lemma OnlyItsUserLists(s: Store, c: Caches, w: Worker, fault: Fault, k: Key, id: string)
    requires CachesOk(c) && HoldsUser(w) && k.kind == User && k in s.objs
    requires var t := Advance(s, c, w, fault).store; k in t.objs && t.objs[k] != s.objs[k]
    requires IsUser(s.objs[k])
    ensures w.UpdateUser? && w.user.rv == s.objs[k].rv
    ensures var o := Advance(s, c, w, fault).store.objs[k];
            IsUser(o) && o.body == WithPrincipal(w.user, w.principal).body
  {
  }

  // With no deletes an object stays, under its number and its owner.
  lemma StillThere(run: seq<World>, acts: seq<Action>, i: nat, n: nat, k: Key)
    requires IsRun(run, acts) && NoDeletes(acts, run) && i <= n < |run|
    requires 0 < |run[i].history| && k in Now(run[i]).objs
    ensures 0 < |run[n].history| && k in Now(run[n]).objs
    ensures Now(run[n]).objs[k].uid == Now(run[i]).objs[k].uid
    ensures Now(run[n]).objs[k].owner == Now(run[i]).objs[k].owner
  {
    HistoryRecords(run, acts, i, n);
    CreationOrder(run, acts, n);
    PresentIsRecorded(run[i].history, run[n].history);
    var h := run[n].history;
    StoredIsSeen(h, |run[i].history| - 1, k);
    assert Filed(h[|run[i].history| - 1], k, Now(run[i]).objs[k]);
    SeenIsPresent(h, k.kind, Now(run[i]).objs[k]);
  }

  // ---- Main results ----------------------------------------------------------------

  // From the moment a worker creates a ClusterRole, a Principal of the same owner is there.
  lemma RolesHavePrincipals(run: seq<World>, acts: seq<Action>, i: nat, n: nat, k: Key) returns (p: Key)
    requires IsRun(run, acts) && NoDeletes(acts, run) && i < n < |run|
    requires Creates(run, acts, i, k) && k.kind == ClusterRole
    ensures 0 < |run[n].history| && k in Now(run[n]).objs && p in Now(run[n]).objs && p.kind == Principal
    ensures Now(run[n]).objs[k].owner.Some? && Now(run[n]).objs[k].owner == Now(run[n]).objs[p].owner
  {
    CreatedIsMade(run, acts, i, n, k);
    CreationOrder(run, acts, n);
    assert RolesOrdered(run[n]);
    p :| p.kind == Principal && Owned(Now(run[n]), p, Now(run[n]).objs[k].owner.value);
  }

  // From the moment it creates a ClusterRoleBinding, the ClusterRole of the same name
  // and owner is there.
  lemma BindingsHaveRoles(run: seq<World>, acts: seq<Action>, i: nat, n: nat, k: Key)
    requires IsRun(run, acts) && NoDeletes(acts, run) && i < n < |run|
    requires Creates(run, acts, i, k) && k.kind == ClusterRoleBinding
    ensures 0 < |run[n].history| && k in Now(run[n]).objs
    ensures var r := Key(ClusterRole, "", k.name);
            && r in Now(run[n]).objs && Now(run[n]).objs[k].owner.Some?
            && Now(run[n]).objs[k].owner == Now(run[n]).objs[r].owner
  {
    CreatedIsMade(run, acts, i, n, k);
    CreationOrder(run, acts, n);
    assert BindingsOrdered(run[n]);
  }

  lemma CreatedIsMade(run: seq<World>, acts: seq<Action>, i: nat, n: nat, k: Key)
    requires IsRun(run, acts) && NoDeletes(acts, run) && i < n < |run| && Creates(run, acts, i, k)
    ensures 0 < |run[n].history| && k in Now(run[n]).objs && Now(run[n]).objs[k].uid in run[n].made
  {
    CreationIsRecorded(run, acts, i, k);
    RecordsGrow(run, acts, i + 1, n);
    StillThere(run, acts, i + 1, n, k);
  }

  // From the moment a worker makes a User list an ID, the User owns a Principal of that
  // name, and the ClusterRole and the ClusterRoleBinding of its own.
  lemma ListedIDsHaveGrants(run: seq<World>, acts: seq<Action>, i: nat, n: nat, k: Key, id: string) returns (p: Key)
    requires IsRun(run, acts) && NoDeletes(acts, run) && i < n < |run| && Lists(run, acts, i, k, id)
    ensures p.kind == Principal && p.name == id && 0 < |run[n].history|
    ensures forall m | m in {p, Key(ClusterRole, "", k.name), Key(ClusterRoleBinding, "", k.name)} ::
              m in Now(run[n]).objs && Now(run[n]).objs[m].owner == Some(Now(run[i]).objs[k].uid)
  {
    var credit := Credit(Now(run[i]).objs[k].uid, k.name, id);
    ListingIsRecorded(run, acts, i, k, id);
    RecordsGrow(run, acts, i + 1, n);
    CreationOrder(run, acts, n);
    assert CreditBacked(Now(run[n]), credit);
    var ns :| Owned(Now(run[n]), Key(Principal, ns, id), credit.uid);
    p := Key(Principal, ns, id);
  }
}
