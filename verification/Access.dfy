/**
 Whether a principal may enter (backend/user.go, CheckUserCache and
 CheckPrincipalCache; backend/provider/local/local_provider.go, CheckAccess),
 and that a synced user may.
 */
module Access {
  import opened Options
  import opened KubeApi
  import opened Common
  import opened UserSync
  import opened UserConvergence

  // ByIndex on UserByPrincipal, which yields every ID a user lists.
  function UsersListing(cache: Store, id: string): set<Key> {
    set k | k in cache.objs && k.kind == User && cache.objs[k].body.UserBody? && id in cache.objs[k].body.principalIDs
  }

  // None is the error for an ambiguous ID. An unknown ID is not an error: it
  // yields an empty object.
  datatype Checked = Checked(obj: Object, ok: bool)

  const NO_USER := NO_OBJECT.(body := UserBody("", "", []))
  const NO_PRINCIPAL := NO_OBJECT.(body := PrincipalBody("", ""))

  function CheckedAmong(cache: Store, keys: set<Key>, empty: Object): Checked
    requires keys <= cache.objs.Keys
  {
    if |keys| > 1 then Checked(empty, false)
    else if |keys| == 1 then Checked(cache.objs[TheOnly(keys)], true)
    else Checked(empty, true)
  }

  function CheckUserCache(users: Store, id: string): Checked {
    CheckedAmong(users, UsersListing(users, id), NO_USER)
  }

  function CheckPrincipalCache(principals: Store, id: string): Checked {
    CheckedAmong(principals, ByName(principals, Principal, id), NO_PRINCIPAL)
  }

  // The name a lookup yields, "" where it finds nothing.
  ghost predicate UsernameIs(users: Store, id: string, name: string) {
    || (UsersListing(users, id) == {} && name == "")
    || (exists k :: UsersListing(users, id) == {k} && k in users.objs && users.objs[k].body.UserBody?
                 && users.objs[k].body.username == name)
  }

  ghost predicate LoginNameIs(principals: Store, id: string, name: string) {
    || (ByName(principals, Principal, id) == {} && name == "")
    || (exists k :: ByName(principals, Principal, id) == {k} && k in principals.objs
                 && principals.objs[k].body.PrincipalBody? && principals.objs[k].body.loginName == name)
  }

  // Allowed exactly when both lookups are unambiguous and agree on a name, where
  // two lookups that find nothing agree on the empty one.
  method CheckAccess(users: Store, principals: Store, id: string) returns (allowed: bool)
    requires WellFormed(users) && WellFormed(principals)
    ensures allowed <==> exists name :: UsernameIs(users, id, name) && LoginNameIs(principals, id, name)
  {
    var u, p := UsersListing(users, id), ByName(principals, Principal, id);
    var user := CheckUserCache(users, id);
    if !user.ok {
      assert forall k :: u != {k};
      return false;
    }
    var principal := CheckPrincipalCache(principals, id);
    if !principal.ok {
      assert forall k :: p != {k};
      return false;
    }
    CheckedFacts(users, principals, id);
    allowed := user.obj.body.username == principal.obj.body.loginName;
    if allowed {
      assert UsernameIs(users, id, user.obj.body.username);
      assert LoginNameIs(principals, id, user.obj.body.username);
    }
  }

  // An unambiguous lookup determines the name it yields.
  lemma CheckedFacts(users: Store, principals: Store, id: string)
    requires WellFormed(users) && WellFormed(principals)
    requires CheckUserCache(users, id).ok && CheckPrincipalCache(principals, id).ok
    ensures CheckUserCache(users, id).obj.body.UserBody? && CheckPrincipalCache(principals, id).obj.body.PrincipalBody?
    ensures forall name :: UsernameIs(users, id, name) <==> name == CheckUserCache(users, id).obj.body.username
    ensures forall name :: LoginNameIs(principals, id, name) <==>
              name == CheckPrincipalCache(principals, id).obj.body.loginName
  {
    var u, p := UsersListing(users, id), ByName(principals, Principal, id);
    if |u| == 1 {
      assert u == {TheOnly(u)};
      assert TheOnly(u) in u;
    }
    if |p| == 1 {
      assert p == {TheOnly(p)};
      assert TheOnly(p) in p;
      assert Filed(principals, TheOnly(p), principals.objs[TheOnly(p)]);
    }
  }

  // An ID that no user lists is allowed exactly when no principal bears it either, or
  // the one that does has no login name.
  lemma UnlistedIDAllowedIff(users: Store, principals: Store, id: string)
    requires WellFormed(users) && WellFormed(principals) && UsersListing(users, id) == {}
    ensures (exists name :: UsernameIs(users, id, name) && LoginNameIs(principals, id, name)) <==>
      ByName(principals, Principal, id) == {}
      || exists k :: ByName(principals, Principal, id) == {k} && k in principals.objs
                  && principals.objs[k].body.PrincipalBody? && principals.objs[k].body.loginName == ""
  {
    assert forall k :: UsersListing(users, id) != {k};
    assert forall name :: UsernameIs(users, id, name) <==> name == "";
    assert LoginNameIs(principals, id, "") ==> UsernameIs(users, id, "") && LoginNameIs(principals, id, "");
  }

  // Before its first sync a user lists no local ID, and the provider takes "" for its
  // principal. Objects have names, so nobody has that one: the check allows it, under an ID
  // that names no provider.
  lemma UserWithoutLocalIDAllowed(users: Store, principals: Store, user: Object)
    requires WellFormed(users) && WellFormed(principals) && IsUser(user) && LastLocal(user.body.principalIDs) == ""
    requires UsersListing(users, "") == {} && ByName(principals, Principal, "") == {}
    ensures var id := LastLocal(user.body.principalIDs);
            && (exists name :: UsernameIs(users, id, name) && LoginNameIs(principals, id, name))
            && AuthProviderName(id) == ""
  {
    assert UsernameIs(users, "", "") && LoginNameIs(principals, "", "");
  }

  // For an established user whose ID nobody else lists, access hinges on the
  // login name its principal was created with.
  lemma EstablishedAccess(s: Store, ns: string, name: string)
    requires HasUser(s, ns, name) && IsUser(UserAt(s, ns, name)) && Established(s, UserAt(s, ns, name))
    requires UsersListing(s, LocalID(UserAt(s, ns, name))) == {Key(User, ns, name)}
    ensures var u := UserAt(s, ns, name);
            var p := s.objs[TheOnly(Namesakes(s, u))];
            && p.body.PrincipalBody?
            && (p.body.loginName == u.body.username <==>
                  exists x :: UsernameIs(s, LocalID(u), x) && LoginNameIs(s, LocalID(u), x))
  {
    var u := UserAt(s, ns, name);
    var k := TheOnly(Namesakes(s, u));
    assert k in Namesakes(s, u);
    assert Filed(s, k, s.objs[k]);
    assert TheOnly({Key(User, ns, name)}) == Key(User, ns, name);
    assert CheckUserCache(s, LocalID(u)) == Checked(u, true);
    assert CheckPrincipalCache(s, LocalID(u)) == Checked(s.objs[k], true);
    CheckedFacts(s, s, LocalID(u));
    if s.objs[k].body.loginName == u.body.username {
      assert UsernameIs(s, LocalID(u), u.body.username);
      assert LoginNameIs(s, LocalID(u), u.body.username);
    }
  }

  // A user that was Ready, and whose principal the sync created, is allowed as soon
  // as the caches show the outcome: the provider finds the controller's ID, that
  // ID names the local provider, and the check allows it.
  lemma SyncedUserHasAccess(s: Store, ns: string, name: string)
    requires HasUser(s, ns, name) && IsUser(UserAt(s, ns, name)) && Ready(s, UserAt(s, ns, name))
    requires Namesakes(s, UserAt(s, ns, name)) == {}
    requires UsersListing(s, LocalID(UserAt(s, ns, name))) <= {Key(User, ns, name)}
    ensures var id := LocalID(UserAt(s, ns, name));
            var t := Sync(s, FreshCaches(s), ns, name, NO_FAULTS).store;
            && HasUser(t, ns, name) && IsUser(UserAt(t, ns, name))
            && LastLocal(UserAt(t, ns, name).body.principalIDs) == id
            && AuthProviderName(id) == "local"
            && exists x :: UsernameIs(t, id, x) && LoginNameIs(t, id, x)
  {
    var u := UserAt(s, ns, name);
    var id, t := LocalID(u), Sync(s, FreshCaches(s), ns, name, NO_FAULTS).store;
    UserFacts(s, ns, name);
    SyncSucceedsIff(s, ns, name);
    LocalIDNamesLocalProvider(u);
    var v := UserAt(t, ns, name);
    OnlyListing(s, t, ns, name, id);
    NamesakeIff(t, v, PrincipalKey(u));
    assert PrincipalKey(u) == TheOnly(Namesakes(t, v));
    EstablishedAccess(t, ns, name);
  }

  lemma ListingIff(s: Store, id: string, k: Key)
    ensures k in UsersListing(s, id) <==>
      k in s.objs && k.kind == User && s.objs[k].body.UserBody? && id in s.objs[k].body.principalIDs
  {
  }

  lemma OnlyListing(s: Store, t: Store, ns: string, name: string, id: string)
    requires HasUser(s, ns, name) && Converged(s, t, ns, name) && id == LocalID(UserAt(s, ns, name))
    requires UsersListing(s, id) <= {Key(User, ns, name)}
    ensures UsersListing(t, id) == {Key(User, ns, name)}
  {
    UserFacts(s, ns, name);
    forall k
      ensures k in UsersListing(t, id) <==> k == Key(User, ns, name)
    {
      ListingIff(s, id, k);
      ListingIff(t, id, k);
    }
  }
}
