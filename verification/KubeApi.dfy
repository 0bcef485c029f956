/**
 The Kubernetes API server as the controllers see it: a store of versioned
 objects, and Create, Update and Get calls that may succeed, be refused, or be
 carried out while the answer is lost.

 Facts of the server that the proofs rest on: every object gets a UID that is
 never handed out again, every write gets a resource version that is never
 handed out again, an Update carrying a resource version is a compare-and-swap
 on it, and a call that fails hands its caller a non-nil but empty object.
 */
module KubeApi {
  import opened Options

  type Uid = nat

  datatype Kind =
    | User | Principal | ClusterRole | ClusterRoleBinding
    | Infrastructure | Deployment
    | Namespace | Secret | ServiceAccount | Role | RoleBinding | Service | DaemonSet

  datatype Key = Key(kind: Kind, ns: string, name: string)

  // The text of Spec.InfraKind: one of the three the controller knows, or another.
  datatype InfraKind = Dashboard | Longhorn | RancherVM | Other(text: string)

  datatype Health = Unset | Healthy | UnHealthy
  datatype Complaint = Silent | ServiceMissing | InvalidKind
  datatype InfraStatus = InfraStatus(state: Health, available: int, message: Complaint)

  datatype Body =
    | UserBody(username: string, displayName: string, principalIDs: seq<string>)
    | PrincipalBody(displayName: string, loginName: string)
    | InfraBody(infraKind: InfraKind, wanted: Option<int>, status: InfraStatus)
    | DeploymentBody(replicas: int, available: int)
    | Plain

  // owner is the UID in the controller reference of the object, when it has one.
  datatype Object = Object(ns: string, name: string, uid: Uid, rv: nat, owner: Option<Uid>, body: Body)

  datatype Store = Store(objs: map<Key, Object>, nextUid: Uid, nextRv: nat)

  datatype Error = NotFound | AlreadyExists | Conflict | Invalid | Transient

  // What happens to one API call apart from what the store says about it:
  // nothing, it never reaches the store, or it does but its answer is lost.
  datatype Fault = NoFault | Refused | Lost

  datatype Reply = Reply(obj: Object, err: Option<Error>)
  datatype Answer = Answer(store: Store, reply: Reply)

  const NO_OBJECT: Object := Object("", "", 0, 0, None, Plain)

  // No error, or the one that a Create of something already there answers.
  predicate Tolerated(r: Reply) { r.err == None || r.err == Some(AlreadyExists) }

  function Failure(e: Error): Reply { Reply(NO_OBJECT, Some(e)) }

  function KeyOf(kind: Kind, o: Object): Key { Key(kind, o.ns, o.name) }

  predicate ControlledBy(o: Object, owner: Object) { o.owner == Some(owner.uid) }

  predicate ClusterScoped(kind: Kind) {
    kind == ClusterRole || kind == ClusterRoleBinding || kind == Namespace
  }

  predicate Fits(kind: Kind, body: Body) {
    match kind
    case User => body.UserBody?
    case Principal => body.PrincipalBody?
    case Infrastructure => body.InfraBody?
    case Deployment => body.DeploymentBody?
    case _ => body.Plain?
  }

  predicate Filed(s: Store, k: Key, o: Object) {
    && k == KeyOf(k.kind, o)
    && 0 < o.uid < s.nextUid
    && 0 < o.rv < s.nextRv
    && Fits(k.kind, o.body)
    && (ClusterScoped(k.kind) ==> k.ns == "")
  }

  ghost predicate WellFormed(s: Store) {
    && 0 < s.nextUid
    && 0 < s.nextRv
    && forall k | k in s.objs :: Filed(s, k, s.objs[k])
  }

  // ---- The calls -------------------------------------------------------

  function Creating(s: Store, kind: Kind, o: Object): Answer {
    if KeyOf(kind, o) in s.objs then
      Answer(s, Failure(AlreadyExists))
    else
      var stored := o.(uid := s.nextUid, rv := s.nextRv);
      Answer(Store(s.objs[KeyOf(kind, o) := stored], s.nextUid + 1, s.nextRv + 1), Reply(stored, None))
  }

  // An Update leaves the status of a Deployment alone: it is a subresource.
  function Merged(old_: Body, new_: Body): Body {
    if old_.DeploymentBody? && new_.DeploymentBody? then new_.(available := old_.available) else new_
  }

  // A resource version of 0 stands for "not given"; only built-in kinds accept that.
  // An Update that changes nothing is not a write.
  function Updating(s: Store, kind: Kind, o: Object): Answer {
    var k := KeyOf(kind, o);
    if k !in s.objs then
      Answer(s, Failure(NotFound))
    else if o.rv == 0 && kind != Deployment then
      Answer(s, Failure(Invalid))
    else if o.rv != 0 && o.rv != s.objs[k].rv then
      Answer(s, Failure(Conflict))
    else
      var stored := s.objs[k].(owner := o.owner, body := Merged(s.objs[k].body, o.body));
      if stored == s.objs[k] then
        Answer(s, Reply(stored, None))
      else
        var bumped := stored.(rv := s.nextRv);
        Answer(Store(s.objs[k := bumped], s.nextUid, s.nextRv + 1), Reply(bumped, None))
  }

  function Faulted(before: Store, a: Answer, fault: Fault): Answer {
    match fault
    case NoFault => a
    case Refused => Answer(before, Failure(Transient))
    case Lost => Answer(a.store, Failure(Transient))
  }

  function Create(s: Store, kind: Kind, o: Object, fault: Fault): Answer {
    Faulted(s, Creating(s, kind, o), fault)
  }

  function Update(s: Store, kind: Kind, o: Object, fault: Fault): Answer {
    Faulted(s, Updating(s, kind, o), fault)
  }

  function Get(s: Store, k: Key, fault: Fault): Reply {
    if fault != NoFault then Failure(Transient)
    else if k !in s.objs then Failure(NotFound)
    else Reply(s.objs[k], None)
  }

  // A server object: the store is its only field and the calls replace it.
  class ApiServer {
    var store: Store

    constructor (s: Store)
      ensures store == s
    {
      store := s;
    }

    method DoCreate(kind: Kind, o: Object, fault: Fault) returns (r: Reply)
      modifies this
      ensures Answer(store, r) == Create(old(store), kind, o, fault)
    {
      var a := Create(store, kind, o, fault);
      store := a.store;
      r := a.reply;
    }

    method DoUpdate(kind: Kind, o: Object, fault: Fault) returns (r: Reply)
      modifies this
      ensures Answer(store, r) == Update(old(store), kind, o, fault)
    {
      var a := Update(store, kind, o, fault);
      store := a.store;
      r := a.reply;
    }

    method DoGet(k: Key, fault: Fault) returns (r: Reply)
      ensures r == Get(store, k, fault)
    {
      r := Get(store, k, fault);
    }
  }

  // ---- What one step may do to the store --------------------------------

  // k holds a version of its object that s did not have.
  ghost predicate Fresh(s: Store, t: Store, k: Key)
    requires k in t.objs
  {
    && s.nextRv <= t.objs[k].rv < t.nextRv
    && (|| (k in s.objs && t.objs[k].uid == s.objs[k].uid && t.objs[k].owner == s.objs[k].owner)
        || s.nextUid <= t.objs[k].uid < t.nextUid)
  }

  ghost predicate SameAt(s: Store, t: Store, k: Key) {
    k in s.objs && k in t.objs && t.objs[k] == s.objs[k]
  }

  // At most one object is written, and a write never changes an object's controller.
  ghost predicate Evolves(s: Store, t: Store) {
    && s.nextUid <= t.nextUid
    && s.nextRv <= t.nextRv
    && (forall k | k in t.objs :: SameAt(s, t, k) || Fresh(s, t, k))
    && (forall k, m | k in t.objs && m in t.objs && !SameAt(s, t, k) && !SameAt(s, t, m) :: k == m)
  }

  // No object is deleted, nor deleted and created again under its old key.
  ghost predicate Keeps(s: Store, t: Store) {
    forall k | k in s.objs :: k in t.objs && t.objs[k].uid == s.objs[k].uid
  }

  lemma CreateEvolves(s: Store, kind: Kind, o: Object, fault: Fault)
    requires WellFormed(s)
    requires Fits(kind, o.body) && (ClusterScoped(kind) ==> o.ns == "")
    ensures var t := Create(s, kind, o, fault).store; WellFormed(t) && Evolves(s, t) && Keeps(s, t)
  {
    var t := Create(s, kind, o, fault).store;
    forall k | k in t.objs && !SameAt(s, t, k)
      ensures k == KeyOf(kind, o) && Fresh(s, t, k)
    {
    }
  }

  lemma UpdateEvolves(s: Store, kind: Kind, o: Object, fault: Fault)
    requires WellFormed(s)
    requires Fits(kind, o.body)
    requires var k := KeyOf(kind, o); k in s.objs && (o.rv == 0 || o.rv == s.objs[k].rv) ==> o.owner == s.objs[k].owner
    ensures var t := Update(s, kind, o, fault).store; WellFormed(t) && Evolves(s, t) && Keeps(s, t)
  {
    var t := Update(s, kind, o, fault).store;
    forall k | k in t.objs && !SameAt(s, t, k)
      ensures k == KeyOf(kind, o) && Fresh(s, t, k)
    {
    }
  }

  // ---- Histories --------------------------------------------------------

  // kind/o was stored at some point of the history.
  ghost predicate Seen(h: seq<Store>, kind: Kind, o: Object) {
    exists i :: 0 <= i < |h| && KeyOf(kind, o) in h[i].objs && h[i].objs[KeyOf(kind, o)] == o
  }

  // A resource version determines the key and the whole object it was given to.
  ghost predicate VersionsUnique(h: seq<Store>) {
    forall i, j, k, m | 0 <= i < |h| && 0 <= j < |h| && k in h[i].objs && m in h[j].objs
      && h[i].objs[k].rv == h[j].objs[m].rv :: k == m && h[i].objs[k] == h[j].objs[m]
  }

  // A UID determines the key and the controller of the object it was given to.
  ghost predicate OwnersFixed(h: seq<Store>) {
    forall i, j, k, m | 0 <= i < |h| && 0 <= j < |h| && k in h[i].objs && m in h[j].objs
      && h[i].objs[k].uid == h[j].objs[m].uid :: k == m && h[i].objs[k].owner == h[j].objs[m].owner
  }

  ghost predicate CountersGrow(h: seq<Store>) {
    forall i, j | 0 <= i <= j < |h| :: h[i].nextUid <= h[j].nextUid && h[i].nextRv <= h[j].nextRv
  }

  ghost predicate Coherent(h: seq<Store>) {
    && 0 < |h|
    && (forall i | 0 <= i < |h| :: WellFormed(h[i]))
    && CountersGrow(h)
    && VersionsUnique(h)
    && OwnersFixed(h)
  }

  // Nothing ever stored has been deleted.
  ghost predicate Retained(h: seq<Store>) {
    forall i, j | 0 <= i <= j < |h| :: Keeps(h[i], h[j])
  }

  function Last(h: seq<Store>): Store
    requires 0 < |h|
  {
    h[|h| - 1]
  }

  lemma SeenStays(h: seq<Store>, t: Store, kind: Kind, o: Object)
    requires Seen(h, kind, o)
    ensures Seen(h + [t], kind, o)
  {
    var i :| 0 <= i < |h| && KeyOf(kind, o) in h[i].objs && h[i].objs[KeyOf(kind, o)] == o;
    assert (h + [t])[i] == h[i];
  }

  // What was seen by the time of t was seen before or is in t.
  lemma SeenOrNow(h: seq<Store>, t: Store, kind: Kind, o: Object)
    requires Seen(h + [t], kind, o)
    ensures Seen(h, kind, o) || (KeyOf(kind, o) in t.objs && t.objs[KeyOf(kind, o)] == o)
  {
    var k := KeyOf(kind, o);
    var i :| 0 <= i < |h| + 1 && k in (h + [t])[i].objs && (h + [t])[i].objs[k] == o;
    if i < |h| {
      assert h[i].objs[k] == o;
    }
  }

  // Only new objects get new UIDs.
  lemma OldUidStays(s: Store, t: Store, k: Key)
    requires Evolves(s, t) && k in t.objs && t.objs[k].uid < s.nextUid
    ensures k in s.objs && s.objs[k].uid == t.objs[k].uid
  {
    assert SameAt(s, t, k) || Fresh(s, t, k);
  }

  lemma RetainedOne(h: seq<Store>)
    requires |h| == 1
    ensures Retained(h)
  {
    assert Keeps(h[0], h[0]);
  }

  lemma StoredIsSeen(h: seq<Store>, i: nat, k: Key)
    requires i < |h| && k in h[i].objs && WellFormed(h[i])
    ensures Seen(h, k.kind, h[i].objs[k])
  {
    assert Filed(h[i], k, h[i].objs[k]);
  }

  lemma VersionsExtend(h: seq<Store>, t: Store)
    requires Coherent(h) && WellFormed(t) && Evolves(Last(h), t)
    ensures VersionsUnique(h + [t])
  {
    var g, s := h + [t], Last(h);
    forall i, j, k, m | 0 <= i < |g| && 0 <= j < |g| && k in g[i].objs && m in g[j].objs
                        && g[i].objs[k].rv == g[j].objs[m].rv
      ensures k == m && g[i].objs[k] == g[j].objs[m]
    {
      // An unchanged object of t is an object of s; a fresh one has a version beyond all of h.
      assert i < |h| ==> Filed(h[i], k, h[i].objs[k]) && h[i].nextRv <= s.nextRv;
      assert j < |h| ==> Filed(h[j], m, h[j].objs[m]) && h[j].nextRv <= s.nextRv;
      assert i == |h| ==> SameAt(s, t, k) || Fresh(s, t, k);
      assert j == |h| ==> SameAt(s, t, m) || Fresh(s, t, m);
      if i == |h| && SameAt(s, t, k) {
        assert Filed(s, k, s.objs[k]);
        assert g[i].objs[k] == h[|h| - 1].objs[k];
      }
      if j == |h| && SameAt(s, t, m) {
        assert Filed(s, m, s.objs[m]);
        assert g[j].objs[m] == h[|h| - 1].objs[m];
      }
    }
  }

  lemma OwnersExtend(h: seq<Store>, t: Store)
    requires Coherent(h) && WellFormed(t) && Evolves(Last(h), t)
    ensures OwnersFixed(h + [t])
  {
    var g, s := h + [t], Last(h);
    forall i, j, k, m | 0 <= i < |g| && 0 <= j < |g| && k in g[i].objs && m in g[j].objs
                        && g[i].objs[k].uid == g[j].objs[m].uid
      ensures k == m && g[i].objs[k].owner == g[j].objs[m].owner
    {
      assert i < |h| ==> Filed(h[i], k, h[i].objs[k]) && h[i].nextUid <= s.nextUid;
      assert j < |h| ==> Filed(h[j], m, h[j].objs[m]) && h[j].nextUid <= s.nextUid;
      assert i == |h| ==> SameAt(s, t, k) || Fresh(s, t, k);
      assert j == |h| ==> SameAt(s, t, m) || Fresh(s, t, m);
      // Where the UID is old, compare with the object s holds under the same key.
      if i == |h| && k in s.objs && t.objs[k].uid == s.objs[k].uid {
        assert Filed(s, k, s.objs[k]);
        assert g[i].objs[k].owner == h[|h| - 1].objs[k].owner;
      }
      if j == |h| && m in s.objs && t.objs[m].uid == s.objs[m].uid {
        assert Filed(s, m, s.objs[m]);
        assert g[j].objs[m].owner == h[|h| - 1].objs[m].owner;
      }
    }
  }

  lemma CoherentExtends(h: seq<Store>, t: Store)
    requires Coherent(h) && WellFormed(t) && Evolves(Last(h), t)
    ensures Coherent(h + [t])
  {
    VersionsExtend(h, t);
    OwnersExtend(h, t);
  }

  lemma RetainedExtends(h: seq<Store>, t: Store)
    requires 0 < |h| && Retained(h) && Keeps(Last(h), t)
    ensures Retained(h + [t])
  {
    var g := h + [t];
    forall i, j | 0 <= i <= j < |g|
      ensures Keeps(g[i], g[j])
    {
      if i < |h| && j == |h| {
        assert Keeps(h[i], Last(h));
        forall k | k in g[i].objs
          ensures k in t.objs && t.objs[k].uid == g[i].objs[k].uid
        {
          assert k in Last(h).objs;
        }
      }
    }
  }

  // With no deletes, whatever was once seen is still there, under the same controller.
  lemma SeenIsPresent(h: seq<Store>, kind: Kind, o: Object)
    requires Coherent(h) && Retained(h) && Seen(h, kind, o)
    ensures KeyOf(kind, o) in Last(h).objs
    ensures Last(h).objs[KeyOf(kind, o)].uid == o.uid
    ensures Last(h).objs[KeyOf(kind, o)].owner == o.owner
  {
    var i :| 0 <= i < |h| && KeyOf(kind, o) in h[i].objs && h[i].objs[KeyOf(kind, o)] == o;
    assert Keeps(h[i], h[|h| - 1]);
  }

  // A compare-and-swap that succeeds swaps exactly the version its caller had read.
  lemma SwapHitsWhatWasRead(h: seq<Store>, kind: Kind, o: Object, k: Key)
    requires Coherent(h) && Seen(h, kind, o) && k in Last(h).objs && Last(h).objs[k].rv == o.rv
    ensures k == KeyOf(kind, o) && Last(h).objs[k] == o
  {
    var i :| 0 <= i < |h| && KeyOf(kind, o) in h[i].objs && h[i].objs[KeyOf(kind, o)] == o;
    assert h[|h| - 1].objs[k].rv == h[i].objs[KeyOf(kind, o)].rv;
  }
}
