/**
 Searching for users (controller/common.go, UserSearchIndexer and indexField;
 backend/provider/local/local_provider.go, SearchPrincipalsDedupe and its two
 ways of listing users; backend/provider/common/provider.go, SearchPrincipals).

 A short key is looked up in a prefix index, a long one by scanning all users.
 */
module UserSearch {
  import opened Options
  import opened KubeApi
  import opened Common
  import opened Indexers

  const SEARCH_INDEX_DEFAULT_LEN: nat := 6

  type UserObject = o: Object | o.body.UserBody? witness Object("", "", 0, 0, None, UserBody("", "", []))

  function CacheKey(o: UserObject): string { MetaNamespaceKey(o.ns, o.name) }

  predicate Matches(u: UserObject, key: string) {
    key <= u.name || key <= u.body.username || key <= u.body.displayName
  }

  function MinOf(length: nat, defaultLen: nat): nat { if length < defaultLen then length else defaultLen }

  // field[0:2], field[0:3], ..., field[0:n]
  function Prefixes(field: string, n: nat): seq<string>
    requires n <= |field|
  {
    if n < 2 then [] else Prefixes(field, n - 1) + [field[..n]]
  }

  function FieldKeys(field: string): seq<string> { Prefixes(field, MinOf(|field|, SEARCH_INDEX_DEFAULT_LEN)) }

  function SearchKeys(u: UserObject): seq<string> {
    FieldKeys(u.body.username) + FieldKeys(u.body.displayName) + FieldKeys(u.name)
  }

  method IndexField(field: string, maxindex: nat) returns (fieldIndexes: seq<string>)
    requires maxindex <= |field|
    ensures fieldIndexes == Prefixes(field, maxindex)
  {
    fieldIndexes := [];
    var i := 2;
    while i <= maxindex
      invariant 2 <= i && (maxindex >= 2 ==> i <= maxindex + 1)
      invariant fieldIndexes == Prefixes(field, if maxindex < 2 then maxindex else i - 1)
    {
      fieldIndexes := fieldIndexes + [field[0..i]];
      i := i + 1;
    }
  }

  method UserSearchIndexer(user: UserObject) returns (fieldIndexes: seq<string>)
    ensures fieldIndexes == SearchKeys(user)
  {
    var usernames := IndexField(user.body.username, MinOf(|user.body.username|, SEARCH_INDEX_DEFAULT_LEN));
    var displayNames := IndexField(user.body.displayName, MinOf(|user.body.displayName|, SEARCH_INDEX_DEFAULT_LEN));
    var names := IndexField(user.name, MinOf(|user.name|, SEARCH_INDEX_DEFAULT_LEN));
    fieldIndexes := usernames + displayNames + names;
  }

  lemma {:induction false} PrefixesIff(field: string, n: nat, key: string)
    requires n <= |field|
    ensures key in Prefixes(field, n) <==> 2 <= |key| <= n && key <= field
  {
    if n >= 2 {
      PrefixesIff(field, n - 1, key);
      assert key <= field && |key| == n <==> key == field[..n];
    }
  }

  // What a user is indexed under: exactly the keys of 2 to 6 bytes it matches.
  lemma SearchKeysIff(u: UserObject, key: string)
    ensures key in SearchKeys(u) <==> (
              2 <= |key| <= 6 && (key <= u.name || key <= u.body.username || key <= u.body.displayName))
  {
    PrefixesIff(u.body.username, MinOf(|u.body.username|, SEARCH_INDEX_DEFAULT_LEN), key);
    PrefixesIff(u.body.displayName, MinOf(|u.body.displayName|, SEARCH_INDEX_DEFAULT_LEN), key);
    PrefixesIff(u.name, MinOf(|u.name|, SEARCH_INDEX_DEFAULT_LEN), key);
  }

  // The users the provider is asked for. A key of less than two bytes finds nobody.
  function Wanted(users: set<UserObject>, key: string): set<UserObject> {
    set u | u in users && 2 <= |key| && Matches(u, key)
  }

  function AllMatching(users: seq<UserObject>, key: string): seq<UserObject> {
    if users == [] then []
    else AllMatching(users[..|users| - 1], key) + if Matches(users[|users| - 1], key) then [users[|users| - 1]] else []
  }

  lemma {:induction false} AllMatchingCounts(users: seq<UserObject>, key: string, u: UserObject)
    ensures multiset(AllMatching(users, key))[u] == if Matches(u, key) then multiset(users)[u] else 0
  {
    if users != [] {
      var n := |users| - 1;
      assert users == users[..n] + [users[n]];
      AllMatchingCounts(users[..n], key, u);
    }
  }

  // Scanning a listing of the users that names each once finds each wanted one once.
  lemma ScanFindsWanted(list: seq<UserObject>, users: set<UserObject>, key: string)
    requires multiset(list) == multiset(users) && 2 <= |key|
    ensures multiset(AllMatching(list, key)) == multiset(Wanted(users, key))
  {
    forall u
      ensures multiset(AllMatching(list, key))[u] == multiset(Wanted(users, key))[u]
    {
      AllMatchingCounts(list, key, u);
    }
  }

  predicate Concerns(principalType: string) { principalType == "" || principalType == "user" }

  // A principal found, and whether it is the one that searches.
  datatype Hit = Hit(principal: Object, me: bool)

  // The part of a token's UserPrincipal that isThisUserMe compares.
  datatype Searcher = Searcher(name: string, loginName: string, principalType: string)

  function HitFor(u: UserObject, me: Searcher): Hit {
    Hit(ToPrincipal(u), me == Searcher(LocalID(u), u.body.username, "user"))
  }

  predicate KnownElsewhere(u: UserObject, others: set<string>) {
    exists i :: 0 <= i < |u.body.principalIDs| && u.body.principalIDs[i] in others
  }

  function Hits(users: seq<UserObject>, others: set<string>, me: Searcher): seq<Hit> {
    if users == [] then []
    else
      var u := users[|users| - 1];
      Hits(users[..|users| - 1], others, me) + if KnownElsewhere(u, others) then [] else [HitFor(u, me)]
  }

  function Names(hits: seq<Hit>): set<string> { set h | h in hits :: h.principal.name }

  // A right answer: the wanted users once each, in some order, without those known
  // to the others; nothing when the search is for groups.
  ghost predicate IsSearch(users: set<UserObject>, key: string, principalType: string, me: Searcher,
                           others: set<string>, principals: seq<Hit>)
  {
    if Concerns(principalType) then
      exists found :: multiset(found) == multiset(Wanted(users, key)) && principals == Hits(found, others, me)
    else principals == []
  }

  class Provider {
    const users: Indexer<UserObject>

    ghost predicate Valid()
      reads this, users
    {
      users.Valid() && users.keyFunc == CacheKey && users.indexFunc == SearchKeys
    }

    constructor ()
      ensures Valid() && users.items == map[] && fresh(users)
    {
      users := new Indexer(CacheKey, SearchKeys);
    }

    method ListAllUsers(searchKey: string) returns (localUsers: seq<UserObject>)
      requires Valid()
      ensures 2 <= |searchKey| ==> multiset(localUsers) == multiset(Wanted(users.items.Values, searchKey))
    {
      var allUsers := users.List();
      localUsers := [];
      for i := 0 to |allUsers|
        invariant localUsers == AllMatching(allUsers[..i], searchKey)
      {
        assert allUsers[..i + 1][..i] == allUsers[..i];
        var user := allUsers[i];
        if !(searchKey <= user.name || searchKey <= user.body.username || searchKey <= user.body.displayName) {
          continue;
        }
        localUsers := localUsers + [user];
      }
      assert allUsers[..|allUsers|] == allUsers;
      if 2 <= |searchKey| {
        ScanFindsWanted(allUsers, users.items.Values, searchKey);
      }
    }

    method ListUsersByIndex(searchKey: string) returns (localUsers: seq<UserObject>)
      requires Valid()
      ensures |searchKey| <= SEARCH_INDEX_DEFAULT_LEN ==>
                multiset(localUsers) == multiset(Wanted(users.items.Values, searchKey))
    {
      localUsers := users.ByIndex(searchKey);
      forall u: UserObject
        ensures searchKey in SearchKeys(u) <==> 2 <= |searchKey| <= SEARCH_INDEX_DEFAULT_LEN && Matches(u, searchKey)
      {
        SearchKeysIff(u, searchKey);
      }
      if |searchKey| <= SEARCH_INDEX_DEFAULT_LEN {
        assert (set o | o in users.items.Values && searchKey in users.indexFunc(o))
            == Wanted(users.items.Values, searchKey);
      }
    }

    // Whatever the length of the key, and whatever was added, updated and deleted
    // before: the users wanted, each once.
    method FindUsers(searchKey: string) returns (localUsers: seq<UserObject>)
      requires Valid()
      ensures multiset(localUsers) == multiset(Wanted(users.items.Values, searchKey))
    {
      if |searchKey| > SEARCH_INDEX_DEFAULT_LEN {
        localUsers := ListAllUsers(searchKey);
      } else {
        localUsers := ListUsersByIndex(searchKey);
      }
    }

    method SearchPrincipalsDedupe(searchKey: string, principalType: string, me: Searcher, fromOthers: seq<Hit>)
      returns (principals: seq<Hit>)
      requires Valid()
      ensures IsSearch(users.items.Values, searchKey, principalType, me, Names(fromOthers), principals)
    {
      var fromOtherProviders: set<string> := {};
      for i := 0 to |fromOthers|
        invariant fromOtherProviders == Names(fromOthers[..i])
      {
        fromOtherProviders := fromOtherProviders + {fromOthers[i].principal.name};
      }
      assert fromOthers[..|fromOthers|] == fromOthers;
      var localUsers := FindUsers(searchKey);
      principals := [];
      if principalType == "" || principalType == "user" {
        principals := DropKnown(localUsers, fromOtherProviders, me);
      }
    }
  }

  // The nested loop of SearchPrincipalsDedupe.
  method DropKnown(localUsers: seq<UserObject>, fromOtherProviders: set<string>, me: Searcher)
    returns (principals: seq<Hit>)
    ensures principals == Hits(localUsers, fromOtherProviders, me)
  {
    principals := [];
    label Users:
    for i := 0 to |localUsers|
      invariant principals == Hits(localUsers[..i], fromOtherProviders, me)
    {
      assert localUsers[..i + 1][..i] == localUsers[..i];
      var ids := localUsers[i].body.principalIDs;
      for j := 0 to |ids|
        invariant forall k | 0 <= k < j :: ids[k] !in fromOtherProviders
      {
        if ids[j] in fromOtherProviders {
          continue Users;
        }
      }
      principals := principals + [HitFor(localUsers[i], me)];
    }
    assert localUsers[..|localUsers|] == localUsers;
  }

  // ---- What the deduplication achieves ------------------------------------

  lemma {:induction false} HitsIff(users: seq<UserObject>, others: set<string>, me: Searcher, h: Hit)
    ensures h in Hits(users, others, me) <==> exists u :: u in users && !KnownElsewhere(u, others) && h == HitFor(u, me)
  {
    if users != [] {
      var n := |users| - 1;
      assert users == users[..n] + [users[n]];
      HitsIff(users[..n], others, me, h);
    }
  }

  // h presents u to the one who searches, and says whether they are the same.
  predicate Presents(h: Hit, u: UserObject, me: Searcher) {
    && h.principal.ns == u.ns && h.principal.name == LocalID(u) && Says(h.principal, u)
    && h.principal.uid == 0 && h.principal.rv == 0 && h.principal.owner == None
    && (h.me <==> me.name == LocalID(u) && me.loginName == u.body.username && me.principalType == "user")
  }

  lemma PresentsIff(h: Hit, u: UserObject, me: Searcher)
    ensures Presents(h, u, me) <==> h == HitFor(u, me)
  {
  }

  lemma HitsOfSearchIff(users: set<UserObject>, key: string, principalType: string, me: Searcher,
                        others: set<string>, principals: seq<Hit>, h: Hit)
    requires IsSearch(users, key, principalType, me, others, principals) && Concerns(principalType)
    ensures h in principals <==>
              exists u :: u in Wanted(users, key) && !KnownElsewhere(u, others) && h == HitFor(u, me)
  {
    var found :| multiset(found) == multiset(Wanted(users, key)) && principals == Hits(found, others, me);
    HitsIff(found, others, me, h);
    forall u
      ensures u in found <==> u in Wanted(users, key)
    {
      assert u in found <==> u in multiset(found);
    }
  }

  // u matches the key in one of three fields, and lists no name the others gave.
  predicate Findable(u: UserObject, key: string, others: set<string>) {
    && 2 <= |key| && (key <= u.name || key <= u.body.username || key <= u.body.displayName)
    && forall id | id in u.body.principalIDs :: id !in others
  }

  lemma FindableIff(u: UserObject, users: set<UserObject>, key: string, others: set<string>)
    requires u in users
    ensures Findable(u, key, others) <==> u in Wanted(users, key) && !KnownElsewhere(u, others)
  {
  }

  // Who is in an answer, whichever path listed the users and in whatever order.
  lemma SearchFindsIff(users: set<UserObject>, key: string, principalType: string, me: Searcher, others: set<string>,
                       principals: seq<Hit>, h: Hit)
    requires IsSearch(users, key, principalType, me, others, principals)
    ensures h in principals <==>
              (principalType == "" || principalType == "user")
              && exists u :: u in users && Findable(u, key, others) && Presents(h, u, me)
  {
    if Concerns(principalType) {
      HitsOfSearchIff(users, key, principalType, me, others, principals, h);
      forall u | u in users
        ensures Presents(h, u, me) <==> h == HitFor(u, me)
        ensures Findable(u, key, others) <==> u in Wanted(users, key) && !KnownElsewhere(u, others)
      {
        PresentsIff(h, u, me);
        FindableIff(u, users, key, others);
      }
    }
  }

  // A hit is the searcher's own exactly when name, login name and type are the
  // searcher's.
  lemma MineIff(users: set<UserObject>, key: string, principalType: string, me: Searcher, others: set<string>,
                principals: seq<Hit>, h: Hit)
    requires IsSearch(users, key, principalType, me, others, principals) && h in principals
    ensures h.principal.body.PrincipalBody?
    ensures h.me <==> (
              && h.principal.name == me.name && h.principal.body.loginName == me.loginName
              && me.principalType == "user")
  {
    SearchFindsIff(users, key, principalType, me, others, principals, h);
  }

  // A user that lists none of the others' names, and no local ID at all, but has one
  // of those names for its default ID.
  ghost predicate Clashes(u: UserObject, others: set<string>) {
    !KnownElsewhere(u, others) && LastLocal(u.body.principalIDs) == "" && DefaultID(u.ns, u.name) in others
  }

  lemma HitsAvoidOthersIff(users: seq<UserObject>, others: set<string>, me: Searcher)
    ensures Names(Hits(users, others, me)) !! others <==> forall u | u in users :: !Clashes(u, others)
  {
    forall u | u in users && !KnownElsewhere(u, others)
      ensures LastLocal(u.body.principalIDs) == "" && DefaultID(u.ns, u.name) in others <==> LocalID(u) in others
      ensures LocalID(u) in Names(Hits(users, others, me))
    {
      HitsIff(users, others, me, HitFor(u, me));
      assert HitFor(u, me).principal.name == LocalID(u);
      LocalIDElsewhere(u, others);
    }
    forall name | name in Names(Hits(users, others, me))
      ensures exists u :: u in users && !KnownElsewhere(u, others) && name == LocalID(u)
    {
      var h :| h in Hits(users, others, me) && h.principal.name == name;
      HitsIff(users, others, me, h);
    }
  }

  ghost predicate NoNameTwice(hits: seq<Hit>) {
    forall i, j | 0 <= i < j < |hits| :: hits[i].principal.name != hits[j].principal.name
  }

  // No two of the users that are kept have one local ID.
  ghost predicate IDsApart(users: seq<UserObject>, others: set<string>) {
    forall i, j | 0 <= i < j < |users| && !KnownElsewhere(users[i], others) && !KnownElsewhere(users[j], others) ::
      LocalID(users[i]) != LocalID(users[j])
  }

  lemma NoNameTwiceSnoc(hits: seq<Hit>, h: Hit)
    ensures NoNameTwice(hits + [h]) <==> NoNameTwice(hits) && h.principal.name !in Names(hits)
  {
    var all := hits + [h];
    assert all[|hits|] == h && all[..|hits|] == hits;
    if NoNameTwice(all) {
      assert forall i, j | 0 <= i < j < |hits| :: hits[i] == all[i] && hits[j] == all[j];
      assert forall i | 0 <= i < |hits| :: hits[i] == all[i];
    }
  }

  lemma IDsApartSnoc(users: seq<UserObject>, others: set<string>, u: UserObject)
    ensures IDsApart(users + [u], others) <==> (
              && IDsApart(users, others)
              && (!KnownElsewhere(u, others) ==>
                    forall i | 0 <= i < |users| && !KnownElsewhere(users[i], others) ::
                      LocalID(users[i]) != LocalID(u)))
  {
    var all := users + [u];
    assert all[|users|] == u;
    assert forall i | 0 <= i < |users| :: all[i] == users[i];
  }

  lemma NamesOfHits(users: seq<UserObject>, others: set<string>, me: Searcher, name: string)
    ensures name in Names(Hits(users, others, me)) <==>
      exists i :: 0 <= i < |users| && !KnownElsewhere(users[i], others) && name == LocalID(users[i])
  {
    if name in Names(Hits(users, others, me)) {
      var h :| h in Hits(users, others, me) && h.principal.name == name;
      HitsIff(users, others, me, h);
      var u :| u in users && !KnownElsewhere(u, others) && h == HitFor(u, me);
      var i :| 0 <= i < |users| && users[i] == u;
    }
    if i :| 0 <= i < |users| && !KnownElsewhere(users[i], others) && name == LocalID(users[i]) {
      assert users[i] in users;
      HitsIff(users, others, me, HitFor(users[i], me));
      assert HitFor(users[i], me).principal.name == name;
    }
  }

  // A list of hits names a principal twice exactly when two of the users kept have one
  // local ID; it is read off their own lists, so that can be.
  lemma {:induction false} HitsNameNobodyTwiceIff(users: seq<UserObject>, others: set<string>, me: Searcher)
    ensures NoNameTwice(Hits(users, others, me)) <==> IDsApart(users, others)
  {
    if users != [] {
      var n := |users| - 1;
      var u := users[n];
      assert users == users[..n] + [u];
      HitsNameNobodyTwiceIff(users[..n], others, me);
      OneMoreName(users[..n], others, me, u);
    }
  }

  lemma OneMoreName(users: seq<UserObject>, others: set<string>, me: Searcher, u: UserObject)
    requires NoNameTwice(Hits(users, others, me)) <==> IDsApart(users, others)
    ensures NoNameTwice(Hits(users, others, me) + if KnownElsewhere(u, others) then [] else [HitFor(u, me)])
       <==> IDsApart(users + [u], others)
  {
    var hits := Hits(users, others, me);
    IDsApartSnoc(users, others, u);
    if KnownElsewhere(u, others) {
      assert hits + [] == hits;
    } else {
      NoNameTwiceSnoc(hits, HitFor(u, me));
      NamesOfHits(users, others, me, LocalID(u));
    }
  }

  // The same of the users matched, which an answer lists once each in some order.
  ghost predicate AllApart(users: set<UserObject>, others: set<string>) {
    forall u, v | u in users && v in users && u != v && !KnownElsewhere(u, others) && !KnownElsewhere(v, others) ::
      LocalID(u) != LocalID(v)
  }

  lemma ListedOnce(list: seq<UserObject>, users: set<UserObject>, i: nat, j: nat)
    requires multiset(list) == multiset(users) && i < j < |list|
    ensures list[i] != list[j] && list[i] in users && list[j] in users
  {
    var before, after := list[..j], list[j..];
    assert list == before + after;
    assert multiset(list) == multiset(before) + multiset(after);
    assert list[i] == before[i] && list[j] == after[0];
    assert before[i] in multiset(before) && after[0] in multiset(after);
    assert list[i] in multiset(users) && list[j] in multiset(users);
    assert multiset(users)[list[j]] == 1;
    assert multiset(before)[list[j]] == 0;
  }

  lemma AllApartIff(list: seq<UserObject>, users: set<UserObject>, others: set<string>)
    requires multiset(list) == multiset(users)
    ensures IDsApart(list, others) <==> AllApart(users, others)
  {
    if IDsApart(list, others) {
      forall u, v | u in users && v in users && u != v && !KnownElsewhere(u, others) && !KnownElsewhere(v, others)
        ensures LocalID(u) != LocalID(v)
      {
        assert u in multiset(list) && v in multiset(list);
        var i :| 0 <= i < |list| && list[i] == u;
        var j :| 0 <= j < |list| && list[j] == v;
        assert i < j || j < i;
      }
    }
    if AllApart(users, others) {
      forall i, j | 0 <= i < j < |list| && !KnownElsewhere(list[i], others) && !KnownElsewhere(list[j], others)
        ensures LocalID(list[i]) != LocalID(list[j])
      {
        ListedOnce(list, users, i, j);
      }
    }
  }

  // The local part of an answer names a principal twice exactly when two users that
  // match, and are not known to the others, have one local ID.
  lemma NoNameTwiceIff(users: set<UserObject>, key: string, principalType: string, me: Searcher, others: set<string>,
                       principals: seq<Hit>)
    requires IsSearch(users, key, principalType, me, others, principals) && Concerns(principalType)
    ensures NoNameTwice(principals) <==> AllApart(Wanted(users, key), others)
  {
    var found :| multiset(found) == multiset(Wanted(users, key)) && principals == Hits(found, others, me);
    HitsNameNobodyTwiceIff(found, others, me);
    AllApartIff(found, Wanted(users, key), others);
  }

  // It repeats a name another provider gave exactly when a user that matches has that
  // one for its default ID, and lists neither it nor any other it would be known by.
  lemma DedupeLeavesNoDuplicateIff(users: set<UserObject>, key: string, principalType: string, me: Searcher,
                                   others: set<string>, principals: seq<Hit>)
    requires IsSearch(users, key, principalType, me, others, principals) && Concerns(principalType)
    ensures Names(principals) !! others <==> forall u | u in Wanted(users, key) :: !Clashes(u, others)
  {
    var found :| multiset(found) == multiset(Wanted(users, key)) && principals == Hits(found, others, me);
    HitsAvoidOthersIff(found, others, me);
    assert forall u :: u in found <==> u in multiset(found);
  }

  // The whole answer, another provider's in front: no name twice exactly when neither
  // is so.
  lemma AnswerNamesNobodyTwiceIff(users: set<UserObject>, key: string, principalType: string, me: Searcher,
                                  own: seq<Hit>, principals: seq<Hit>)
    requires NoNameTwice(own) && Concerns(principalType)
    requires IsSearch(users, key, principalType, me, Names(own), principals)
    ensures NoNameTwice(own + principals) <==> (
              && AllApart(Wanted(users, key), Names(own))
              && forall u | u in Wanted(users, key) :: !Clashes(u, Names(own)))
  {
    NoNameTwiceIff(users, key, principalType, me, Names(own), principals);
    DedupeLeavesNoDuplicateIff(users, key, principalType, me, Names(own), principals);
    NoNameTwiceJoin(own, principals);
  }

  lemma NoNameTwiceJoin(a: seq<Hit>, b: seq<Hit>)
    ensures NoNameTwice(a + b) <==> NoNameTwice(a) && NoNameTwice(b) && Names(b) !! Names(a)
  {
    var all := a + b;
    assert forall i | 0 <= i < |a| :: all[i] == a[i];
    assert forall j | 0 <= j < |b| :: all[|a| + j] == b[j];
    if NoNameTwice(all) {
      forall i, j | 0 <= i < j < |b|
        ensures b[i].principal.name != b[j].principal.name
      {
        assert all[|a| + i].principal.name != all[|a| + j].principal.name;
      }
      forall h, h' | h in a && h' in b
        ensures h.principal.name != h'.principal.name
      {
        var i :| 0 <= i < |a| && a[i] == h;
        var j :| 0 <= j < |b| && b[j] == h';
        assert all[i].principal.name != all[|a| + j].principal.name;
      }
    } else {
      var i, j :| 0 <= i < j < |all| && all[i].principal.name == all[j].principal.name;
      if j >= |a| {
        assert all[j] == b[j - |a|];
        if i < |a| {
          assert all[i].principal.name in Names(a) && all[j].principal.name in Names(b);
        } else {
          assert all[i] == b[i - |a|];
        }
      }
    }
  }

  // With the local provider alone, which is all that is configured: two users, one of
  // which lists the other's ID, and one name twice in every answer.
  const BOB := Object("kube-system", "bob", 1, 1, None, UserBody("bob", "", ["local.kube-system.bob"]))
  const BOBBY := Object("kube-system", "bobby", 2, 2, None, UserBody("bobby", "", ["local.kube-system.bob"]))

  lemma BobIsNamedTwice(me: Searcher, principals: seq<Hit>)
    requires IsSearch({BOB, BOBBY}, "bob", "user", me, {}, principals)
    ensures !NoNameTwice(principals)
  {
    assert LocalAt(BOB.body.principalIDs, 0) && LocalAt(BOBBY.body.principalIDs, 0);
    LastLocalIsLast(BOB.body.principalIDs);
    assert LocalID(BOB) == LocalID(BOBBY);
    assert BOB.name != BOBBY.name;
    NoNameTwiceIff({BOB, BOBBY}, "bob", "user", me, {}, principals);
    assert BOB in Wanted({BOB, BOBBY}, "bob") && BOBBY in Wanted({BOB, BOBBY}, "bob");
  }

  // And with company: a user without a local ID, whose default ID another provider
  // has given.
  const NEW_BOB := BOB.(body := UserBody("bob", "", []))

  lemma NewBobsID()
    ensures DefaultID(NEW_BOB.ns, NEW_BOB.name) == "local.kube-system.bob" == LocalID(NEW_BOB)
  {
  }

  lemma NewBobIsRepeated(me: Searcher, principals: seq<Hit>)
    requires IsSearch({NEW_BOB}, "bob", "user", me, {"local.kube-system.bob"}, principals)
    ensures "local.kube-system.bob" in Names(principals)
  {
    DedupeLeavesNoDuplicateIff({NEW_BOB}, "bob", "user", me, {"local.kube-system.bob"}, principals);
    NewBobsID();
    assert Clashes(NEW_BOB, {"local.kube-system.bob"});
    assert NEW_BOB in Wanted({NEW_BOB}, "bob");
  }

  lemma LocalIDElsewhere(u: UserObject, others: set<string>)
    requires !KnownElsewhere(u, others)
    ensures LocalID(u) in others <==> LastLocal(u.body.principalIDs) == "" && DefaultID(u.ns, u.name) in others
  {
    LastLocalIsLast(u.body.principalIDs);
  }

  // What a provider answers: principals, and whether the search went well.
  datatype Found = Found(principals: seq<Hit>, ok: bool)

  // The composition: own is what the searcher's own provider answers when that is
  // not the local one.
  method SearchPrincipals(local: Provider, isLocal: bool, own: Found, name: string, principalType: string, me: Searcher)
    returns (r: Found)
    requires local.Valid()
    ensures !isLocal && !own.ok ==> r == own
    ensures isLocal ==> r.ok && IsSearch(local.users.items.Values, name, principalType, me, {}, r.principals)
    ensures !isLocal && own.ok ==> r.ok && own.principals <= r.principals
    ensures !isLocal && own.ok ==>
      IsSearch(local.users.items.Values, name, principalType, me, Names(own.principals),
               r.principals[|own.principals|..])
  {
    if isLocal {
      var principals := local.SearchPrincipalsDedupe(name, principalType, me, []);
      assert Names([]) == {};
      r := Found(principals, true);
    } else if !own.ok {
      r := own;
    } else {
      var localPrincipals := local.SearchPrincipalsDedupe(name, principalType, me, own.principals);
      r := Found(own.principals + localPrincipals, true);
    }
  }
}
