/**
 Principal IDs, the helpers the controller and the local provider share
 (controller/common.go, and GetAuthProviderName of util/util.go).

 A Go string is a sequence of bytes; here each character stands for one byte.
 */
module Common {
  import opened Options
  import opened KubeApi

  const LOCAL_PREFIX := "local."

  predicate IsUser(o: Object) { o.body.UserBody? }

  function DefaultID(ns: string, name: string): string { LOCAL_PREFIX + ns + "." + name }

  // The last ID of the list that starts with "local.", or "" when there is none.
  function LastLocal(ids: seq<string>): (id: string)
    ensures id != "" ==> id in ids && LOCAL_PREFIX <= id
  {
    if ids == [] then ""
    else if LOCAL_PREFIX <= ids[|ids| - 1] then ids[|ids| - 1]
    else LastLocal(ids[..|ids| - 1])
  }

  function LocalID(u: Object): string
    requires IsUser(u)
  {
    var id := LastLocal(u.body.principalIDs);
    if id == "" then DefaultID(u.ns, u.name) else id
  }

  predicate LocalAt(ids: seq<string>, i: nat)
    requires i < |ids|
  {
    LOCAL_PREFIX <= ids[i]
  }

  predicate LastLocalAt(ids: seq<string>, i: nat)
    requires i < |ids|
  {
    LocalAt(ids, i) && forall j | i < j < |ids| :: !LocalAt(ids, j)
  }

  lemma {:induction false} LastLocalIsLast(ids: seq<string>)
    ensures LastLocal(ids) == "" <==> forall i | 0 <= i < |ids| :: !LocalAt(ids, i)
    ensures LastLocal(ids) != "" ==> exists i :: 0 <= i < |ids| && LastLocalAt(ids, i) && LastLocal(ids) == ids[i]
  {
    if ids != [] {
      var n := |ids| - 1;
      if LOCAL_PREFIX <= ids[n] {
        assert LastLocalAt(ids, n);
      } else {
        LastLocalIsLast(ids[..n]);
        LocalAtSnoc(ids, n);
      }
    }
  }

  // Of the entries before the last, which is not local.
  lemma LocalAtSnoc(ids: seq<string>, n: nat)
    requires |ids| == n + 1 && !LocalAt(ids, n)
    ensures forall i | 0 <= i < n :: LocalAt(ids[..n], i) <==> LocalAt(ids, i)
    ensures forall i | 0 <= i < n && LastLocalAt(ids[..n], i) :: LastLocalAt(ids, i)
  {
  }

  // GetLocalPrincipalID of the controller: the last local ID wins.
  method GetLocalPrincipalID(user: Object) returns (principalID: string)
    requires IsUser(user)
    ensures principalID == LocalID(user)
  {
    principalID := ProviderLocalPrincipalID(user);
    if principalID == "" {
      principalID := LOCAL_PREFIX + user.ns + "." + user.name;
    }
  }

  // getLocalPrincipalID of the local provider: the same loop without the default.
  method ProviderLocalPrincipalID(user: Object) returns (principalID: string)
    requires IsUser(user)
    ensures principalID == LastLocal(user.body.principalIDs)
  {
    var ids := user.body.principalIDs;
    principalID := "";
    for i := 0 to |ids|
      invariant principalID == LastLocal(ids[..i])
    {
      assert ids[..i + 1][..i] == ids[..i];
      if LOCAL_PREFIX <= ids[i] {
        principalID := ids[i];
      }
    }
    assert ids[..|ids|] == ids;
  }

  // matchPrincipalID
  method MatchPrincipalID(ids: seq<string>, id: string) returns (found: bool)
    ensures found == (id in ids)
  {
    for i := 0 to |ids|
      invariant id !in ids[..i]
    {
      if ids[i] == id {
        return true;
      }
    }
    return false;
  }

  // What updateUser makes of the list: the ID is added at the end unless it is there.
  function WithID(ids: seq<string>, id: string): (r: seq<string>)
    ensures ids <= r && |r| <= |ids| + 1
    ensures id in r
    ensures forall x | x in r :: x in ids || x == id
  {
    if id in ids then ids else ids + [id]
  }

  // ToPrincipal("user", ...): a missing display name falls back to the login name.
  function ToPrincipal(u: Object): Object
    requires IsUser(u)
  {
    var display := if u.body.displayName == "" then u.body.username else u.body.displayName;
    Object(u.ns, LocalID(u), 0, 0, None, PrincipalBody(display, u.body.username))
  }

  // A principal's login name is the user's, and so is its display name; a user without
  // one is displayed by its login name.
  predicate Says(p: Object, u: Object) {
    && p.body.PrincipalBody? && u.body.UserBody?
    && p.body.loginName == u.body.username
    && (u.body.displayName != "" ==> p.body.displayName == u.body.displayName)
    && (u.body.displayName == "" ==> p.body.displayName == u.body.username)
  }

  // ---- The local ID is a fixpoint ----------------------------------------

  lemma {:induction false} LocalIDIsLocal(u: Object)
    requires IsUser(u)
    ensures LOCAL_PREFIX <= LocalID(u)
  {
    LastLocalIsLast(u.body.principalIDs);
    assert LOCAL_PREFIX <= DefaultID(u.ns, u.name) by {
      assert DefaultID(u.ns, u.name) == LOCAL_PREFIX + (u.ns + "." + u.name);
    }
  }

  // Recording the local ID of a user does not change what its local ID is,
  // and afterwards the provider, which knows no default, computes the same one.
  lemma LocalIDFixpoint(u: Object)
    requires IsUser(u)
    ensures var v := u.(body := u.body.(principalIDs := WithID(u.body.principalIDs, LocalID(u))));
            LocalID(v) == LocalID(u) == LastLocal(v.body.principalIDs)
  {
    var ids := u.body.principalIDs;
    LocalIDIsLocal(u);
    if LocalID(u) in ids {
      var i :| 0 <= i < |ids| && ids[i] == LocalID(u);
      assert LocalAt(ids, i);
      LastLocalIsLast(ids);
    } else {
      var r := ids + [LocalID(u)];
      assert r[|r| - 1] == LocalID(u);
      assert LastLocal(r) == LocalID(u);
    }
  }

  predicate HasDot(s: string) { '.' in s }

  // Namespaces contain no dot, so the default ID tells users apart.
  lemma DefaultIDInjective(ns: string, name: string, ns': string, name': string)
    requires !HasDot(ns) && !HasDot(ns')
    ensures DefaultID(ns, name) == DefaultID(ns', name') <==> ns == ns' && name == name'
  {
    if DefaultID(ns, name) == DefaultID(ns', name') {
      var a, b := ns + "." + name, ns' + "." + name';
      assert DefaultID(ns, name) == LOCAL_PREFIX + a && DefaultID(ns', name') == LOCAL_PREFIX + b;
      assert a == DefaultID(ns, name)[|LOCAL_PREFIX|..] == DefaultID(ns', name')[|LOCAL_PREFIX|..] == b;
      SplitAtFirst(ns, name, ns', name');
    }
  }

  lemma SplitAtFirst(p: string, q: string, p': string, q': string)
    requires !HasDot(p) && !HasDot(p')
    requires p + "." + q == p' + "." + q'
    ensures p == p' && q == q'
  {
    var a, b := p + "." + q, p' + "." + q';
    assert a[|p|] == '.' && b[|p'|] == '.';
    assert p == a[..|p|] && p' == b[..|p'|];
    assert q == a[|p| + 1..] && q' == b[|p'| + 1..];
  }

  // GetAuthProviderName: strings.Split on "." keeps everything before the first dot.
  function AuthProviderName(id: string): (name: string)
    ensures !HasDot(name)
    ensures name == id || name + "." <= id
  {
    if id == "" || id[0] == '.' then "" else [id[0]] + AuthProviderName(id[1..])
  }

  lemma LocalIDNamesLocalProvider(u: Object)
    requires IsUser(u)
    ensures AuthProviderName(LocalID(u)) == "local"
  {
    LocalIDIsLocal(u);
    var id, name := LocalID(u), AuthProviderName(LocalID(u));
    assert id == "local" + "." + id[6..];
    assert HasDot(id) by {
      assert id[5] == '.';
    }
    assert id == name + "." + id[|name| + 1..];
    SplitAtFirst("local", id[6..], name, id[|name| + 1..]);
  }

  // What comes after the first dot, "" when there is none.
  function AfterDot(id: string): string {
    if id == "" then "" else if id[0] == '.' then id[1..] else AfterDot(id[1..])
  }

  lemma {:induction false} SplitAtDot(p: string, q: string)
    requires !HasDot(p)
    ensures AuthProviderName(p + "." + q) == p && AfterDot(p + "." + q) == q
  {
    var id := p + "." + q;
    if p == "" {
      assert id[0] == '.' && id[1..] == q;
    } else {
      SplitAtDot(p[1..], q);
      assert id[0] == p[0] && id[1..] == p[1..] + "." + q;
      assert p == [p[0]] + p[1..];
    }
  }

  // The local ID of a user that lists none, read from the left: the provider, the
  // namespace, and what remains is the name, dots and all.
  lemma UnlistedLocalIDReads(u: Object)
    requires IsUser(u) && !HasDot(u.ns)
    requires forall i | 0 <= i < |u.body.principalIDs| :: !LocalAt(u.body.principalIDs, i)
    ensures AuthProviderName(LocalID(u)) == "local"
    ensures AuthProviderName(AfterDot(LocalID(u))) == u.ns
    ensures AfterDot(AfterDot(LocalID(u))) == u.name
  {
    LastLocalIsLast(u.body.principalIDs);
    assert LocalID(u) == "local" + "." + (u.ns + "." + u.name);
    SplitAtDot("local", u.ns + "." + u.name);
    SplitAtDot(u.ns, u.name);
  }
}
