/**
 Login tokens: the credential a client presents, expiry, lookup and purge
 (util/util.go; backend/user.go, CheckTokenCache and GetStoredToken;
 app/purge.go).

 A time is a number of nanoseconds, a key is an opaque string. A Go Duration is a
 64-bit number of nanoseconds: products wrap around, differences of times saturate.
 */
module Tokens {
  import opened Options
  import opened KubeApi
  import opened Indexers

  datatype Token = Token(ns: string, name: string, key: string, created: int, ttlMillis: int)

  const NO_TOKEN := Token("", "", "", 0, 0)

  // ---- The credential -------------------------------------------------------

  // strings.Split on ":"; there is always at least one part.
  function Split(s: string): (parts: seq<string>)
    ensures 0 < |parts|
  {
    if s == "" then [""]
    else
      var rest := Split(s[1..]);
      if s[0] == ':' then [""] + rest else [[s[0]] + rest[0]] + rest[1..]
  }

  datatype Parts = Parts(name: string, key: string)

  function SplitTokenParts(tokenID: string): Parts {
    var parts := Split(tokenID);
    if |parts| != 2 then Parts(parts[0], "") else Parts(parts[0], parts[1])
  }

  predicate HasColon(s: string) { ':' in s }

  // What a login hands out.
  function Credential(name: string, key: string): string { name + ":" + key }

  lemma {:induction false} SplitPlain(s: string)
    ensures |Split(s)| == 1 <==> !HasColon(s)
    ensures !HasColon(s) ==> Split(s) == [s]
    ensures !HasColon(Split(s)[0])
  {
    if s != "" {
      SplitPlain(s[1..]);
      assert s == [s[0]] + s[1..];
    }
  }

  lemma {:induction false} SplitCredential(name: string, key: string)
    requires !HasColon(name)
    ensures Split(Credential(name, key)) == [name] + Split(key)
  {
    var c := Credential(name, key);
    if name == "" {
      assert c[0] == ':' && c[1..] == key;
    } else {
      SplitCredential(name[1..], key);
      assert c[0] == name[0] && c[1..] == Credential(name[1..], key);
      assert c[0] != ':';
      assert name == [name[0]] + name[1..];
      assert Split(c[1..])[1..] == Split(key);
    }
  }

  // A credential gives its two halves back exactly when neither holds a colon.
  lemma CredentialRoundTrip(name: string, key: string)
    ensures SplitTokenParts(Credential(name, key)) == Parts(name, key) <==> !HasColon(name) && !HasColon(key)
  {
    var c := Credential(name, key);
    SplitPlain(c);
    if !HasColon(name) {
      SplitCredential(name, key);
      SplitPlain(key);
      assert Split(c)[0] == name;
    }
  }

  // Whatever the text, its name is what comes before the first colon.
  lemma NameIsBeforeColon(tokenID: string)
    ensures var name := SplitTokenParts(tokenID).name;
            ':' !in name && name <= tokenID && (name != tokenID ==> tokenID[|name|] == ':')
  {
    SplitPlain(tokenID);
    FirstPart(tokenID);
  }

  lemma {:induction false} FirstPart(s: string)
    ensures var name := Split(s)[0]; name <= s && (name != s ==> s[|name|] == ':')
  {
    if s != "" && s[0] != ':' {
      FirstPart(s[1..]);
      assert Split(s)[0] == [s[0]] + Split(s[1..])[0];
      assert s == [s[0]] + s[1..];
    }
  }

  // The only text that splits into a name and a key is their credential.
  lemma {:induction false} OnlyCredentialsSplit(tokenID: string)
    ensures SplitTokenParts(tokenID).key != "" ==>
      tokenID == Credential(SplitTokenParts(tokenID).name, SplitTokenParts(tokenID).key)
  {
    if |Split(tokenID)| == 2 {
      TwoParts(tokenID);
    }
  }

  lemma {:induction false} TwoParts(s: string)
    requires |Split(s)| == 2
    ensures s == Split(s)[0] + ":" + Split(s)[1]
  {
    SplitPlain(s);
    SplitPlain(s[1..]);
    if s[0] == ':' {
      assert s == ":" + s[1..];
      assert Split(s)[1] == s[1..];
    } else {
      TwoParts(s[1..]);
      assert s == [s[0]] + s[1..];
      assert Split(s)[0] == [s[0]] + Split(s[1..])[0] && Split(s)[1] == Split(s[1..])[1];
    }
  }

  // ---- Expiry ---------------------------------------------------------------

  const TWO63 := 0x8000_0000_0000_0000
  const NANOS_PER_MILLI := 1_000_000
  const NANOS_PER_SECOND := 1_000_000_000

  // The largest number of milliseconds a Duration can hold.
  const MAX_TTL := 9223372036854

  predicate IsInt64(x: int) { -TWO63 <= x < TWO63 }

  function Wrap(x: int): (r: int)
    ensures IsInt64(r)
    ensures IsInt64(x) ==> r == x
  {
    (x + TWO63) % (2 * TWO63) - TWO63
  }

  // time.Duration(ttl) * time.Millisecond
  function TtlDuration(t: Token): int { Wrap(t.ttlMillis * NANOS_PER_MILLI) }

  // time.Since saturates.
  function Since(created: int, now: int): int {
    var d := now - created;
    if d < -TWO63 then -TWO63 else if TWO63 <= d then TWO63 - 1 else d
  }

  predicate IsExpired(t: Token, now: int) {
    if t.ttlMillis == 0 then false else Since(t.created, now) >= TtlDuration(t)
  }

  // Once expired, always expired, whatever wraps around.
  lemma ExpiryIsFinal(t: Token, now: int, later: int)
    requires now <= later && IsExpired(t, now)
    ensures IsExpired(t, later)
  {
    assert Since(t.created, now) <= Since(t.created, later);
  }

  // The intended meaning, at any time and for every time to live a Duration can hold: the
  // token lives for its time to live, 0 meaning forever.
  lemma ExpiredIff(t: Token, now: int)
    requires -MAX_TTL <= t.ttlMillis <= MAX_TTL
    ensures IsExpired(t, now) <==> t.ttlMillis != 0 && now >= t.created + t.ttlMillis * NANOS_PER_MILLI
  {
    DurationExactIff(t);
  }

  // Beyond that bound the product wraps around.
  lemma DurationExactIff(t: Token)
    ensures TtlDuration(t) == t.ttlMillis * NANOS_PER_MILLI <==> -MAX_TTL <= t.ttlMillis <= MAX_TTL
  {
    var product := t.ttlMillis * NANOS_PER_MILLI;
    assert IsInt64(product) <==> -MAX_TTL <= t.ttlMillis <= MAX_TTL;
  }

  // A token meant to live one millisecond more than that has expired at birth.
  lemma LongestTokenIsBornExpired()
    ensures var t := Token("", "token-a", "k", 0, MAX_TTL + 1);
            IsExpired(t, t.created)
  {
    var product := (MAX_TTL + 1) * NANOS_PER_MILLI;
    assert product == 9223372036855000000;
    assert Wrap(product) == product - 2 * TWO63;
  }

  // SetTokenExpiresAt: the second in which the token expires; nothing when it never does.
  function ExpiresAt(t: Token): Option<int> {
    if t.ttlMillis == 0 then None else Some((t.created + TtlDuration(t)) / NANOS_PER_SECOND)
  }

  // What is printed agrees with what is enforced, to the second.
  lemma PrintedExpiryIsHonest(t: Token, now: int)
    requires IsInt64(now - t.created)
    ensures ExpiresAt(t) == None ==> !IsExpired(t, now)
    ensures ExpiresAt(t).Some? && now < ExpiresAt(t).value * NANOS_PER_SECOND ==> !IsExpired(t, now)
    ensures ExpiresAt(t).Some? && now >= (ExpiresAt(t).value + 1) * NANOS_PER_SECOND ==> IsExpired(t, now)
  {
    var end := t.created + TtlDuration(t);
    assert end == (end / NANOS_PER_SECOND) * NANOS_PER_SECOND + end % NANOS_PER_SECOND;
  }

  // ---- Lookup ---------------------------------------------------------------

  function Having(tokens: set<Token>, key: string): set<Token> {
    set t | t in tokens && t.key == key
  }

  // The credential is accepted as t: no other token has the key, the name is
  // right too, and t has not expired.
  ghost predicate Accepts(tokens: set<Token>, auth: string, now: int, t: Token) {
    var parts := SplitTokenParts(auth);
    && parts.name != "" && parts.key != ""
    && Having(tokens, parts.key) == {t}
    && t.name == parts.name
    && !IsExpired(t, now)
  }

  // Of these only the first can come out of the cache lookup.
  datatype LookupError = NotUnique | ApiNotFound

  function CacheKey(t: Token): string { MetaNamespaceKey(t.ns, t.name) }

  function TokenByKey(t: Token): seq<string> { [t.key] }

  lemma OneListed(list: seq<Token>, found: set<Token>)
    requires multiset(list) == multiset(found)
    ensures |list| == |found|
    ensures |list| == 1 ==> found == {list[0]}
    ensures forall t :: found == {t} ==> |list| == 1
  {
    assert |multiset(list)| == |multiset(found)|;
    if |list| == 1 {
      forall t
        ensures t in found <==> t == list[0]
      {
        assert t in found <==> t in multiset(list);
      }
    }
  }

  class Backend {
    const tokens: Indexer<Token>

    ghost predicate Valid()
      reads this, tokens
    {
      tokens.Valid() && tokens.keyFunc == CacheKey && tokens.indexFunc == TokenByKey
    }

    constructor ()
      ensures Valid() && tokens.items == map[] && fresh(tokens)
    {
      tokens := new Indexer(CacheKey, TokenByKey);
    }

    // A key nobody has is no error: it yields an empty token.
    method CheckTokenCache(key: string) returns (token: Token, err: Option<LookupError>)
      requires Valid()
      ensures err == Some(NotUnique) <==> |Having(tokens.items.Values, key)| > 1
      ensures err == None <==> |Having(tokens.items.Values, key)| <= 1
      ensures err == None ==>
        (token == NO_TOKEN && Having(tokens.items.Values, key) == {}) || Having(tokens.items.Values, key) == {token}
    {
      var found := tokens.ByIndex(key);
      assert (set t | t in tokens.items.Values && key in TokenByKey(t)) == Having(tokens.items.Values, key);
      OneListed(found, Having(tokens.items.Values, key));
      if |found| > 1 {
        return NO_TOKEN, Some(NotUnique);
      }
      if |found| == 1 {
        return found[0], None;
      }
      return NO_TOKEN, None;
    }

    // A nil token, a non-zero status and an error go together. The direct client
    // is never asked, which is why its branch has no more to it here.
    method GetStoredToken(auth: string, now: int)
      returns (token: Option<Token>, status: int, err: bool, useTokenClient: bool)
      requires Valid()
      ensures !useTokenClient
      ensures err <==> token == None
      ensures err <==> status != 0
      ensures forall t :: token == Some(t) <==> Accepts(tokens.items.Values, auth, now, t)
      ensures var parts, found := SplitTokenParts(auth), Having(tokens.items.Values, SplitTokenParts(auth).key);
              && (status == 404 <==> parts.name == "" || parts.key == "" || |found| > 1)
              && (status == 410 <==>
                    && parts.name != "" && parts.key != ""
                    && exists t :: found == {t} && t.name == parts.name && IsExpired(t, now))
              && (status == 401 <==>
                    && parts.name != "" && parts.key != "" && |found| <= 1
                    && forall t | t in found :: t.name != parts.name)
              && status in {0, 401, 404, 410}
    {
      var parts := SplitTokenParts(auth);
      useTokenClient := false;
      if parts.name == "" || parts.key == "" {
        return None, 404, true, useTokenClient;
      }
      var storedToken, lookup := CheckTokenCache(parts.key);
      if lookup.Some? {
        useTokenClient := lookup.value.ApiNotFound?;
        if !useTokenClient {
          return None, 404, true, useTokenClient;
        }
      }
      if storedToken.key != parts.key || storedToken.name != parts.name {
        return None, 401, true, useTokenClient;
      }
      if IsExpired(storedToken, now) {
        return None, 410, true, useTokenClient;
      }
      return Some(storedToken), 0, false, useTokenClient;
    }
  }

  // The one text a token is accepted on is its name, a colon and its key; it lives, and
  // no other token has that key.
  lemma AcceptedIff(tokens: set<Token>, auth: string, now: int, t: Token)
    ensures Accepts(tokens, auth, now, t) <==> (
              && auth == t.name + ":" + t.key && t.name != "" && t.key != "" && ':' !in t.name && ':' !in t.key
              && t in tokens && !IsExpired(t, now)
              && forall x | x in tokens && x.key == t.key :: x == t)
  {
    var parts := SplitTokenParts(auth);
    if Accepts(tokens, auth, now, t) {
      assert t in Having(tokens, parts.key);
      OnlyCredentialsSplit(auth);
      CredentialRoundTrip(parts.name, parts.key);
      assert forall x | x in tokens && x.key == t.key :: x in Having(tokens, parts.key);
    }
    if auth == Credential(t.name, t.key) && t in tokens && forall x | x in tokens && x.key == t.key :: x == t {
      CredentialRoundTrip(t.name, t.key);
      assert Having(tokens, t.key) == {t};
    }
  }

  // A stored token's own credential is accepted exactly while the token lives, as
  // long as no other token shares its key.
  lemma OwnCredentialAccepted(tokens: set<Token>, t: Token, now: int)
    requires t in tokens && t.name != "" && t.key != "" && !HasColon(t.name) && !HasColon(t.key)
    ensures (exists x :: Accepts(tokens, Credential(t.name, t.key), now, x)) <==>
              Having(tokens, t.key) == {t} && !IsExpired(t, now)
  {
    CredentialRoundTrip(t.name, t.key);
    if Having(tokens, t.key) == {t} && !IsExpired(t, now) {
      assert Accepts(tokens, Credential(t.name, t.key), now, t);
    } else {
      assert t in Having(tokens, t.key);
    }
  }

  // ---- Purge ----------------------------------------------------------------

  function Named(tokens: set<Token>, t: Token): set<Token> {
    set x | x in tokens && x.ns == t.ns && x.name == t.name
  }

  function Among(listed: seq<Token>): set<Token> { set t | t in listed }

  // The tokens left by deleting, by name, the listed ones that have expired. A
  // delete that is refused deletes nothing; one whose answer is lost does delete.
  function Purged(tokens: set<Token>, listed: set<Token>, now: int, faults: Token -> Fault): set<Token> {
    set t | t in tokens && !exists x ::
      x in listed && IsExpired(x, now) && faults(x) != Refused && x.ns == t.ns && x.name == t.name
  }

  class TokenApi {
    var tokens: set<Token>

    method Delete(t: Token, fault: Fault) returns (err: Option<Error>)
      modifies this
      ensures tokens == if fault == Refused then old(tokens) else old(tokens) - Named(old(tokens), t)
      ensures err == if fault != NoFault then Some(Transient)
                     else if Named(old(tokens), t) == {} then Some(NotFound) else None
    {
      if fault == Refused {
        return Some(Transient);
      }
      var named := Named(tokens, t);
      tokens := tokens - named;
      err := if fault == Lost then Some(Transient) else if named == {} then Some(NotFound) else None;
    }

    method Purge(listed: seq<Token>, now: int, faults: Token -> Fault) returns (count: nat)
      modifies this
      ensures tokens == Purged(old(tokens), Among(listed), now, faults)
      ensures count == |set i | 0 <= i < |listed| && IsExpired(listed[i], now) && faults(listed[i]) == NoFault|
    {
      count := 0;
      ghost var counted: set<int> := {};
      for i := 0 to |listed|
        invariant tokens == Purged(old(tokens), Among(listed[..i]), now, faults)
        invariant counted == set j | 0 <= j < i && IsExpired(listed[j], now) && faults(listed[j]) == NoFault
        invariant count == |counted|
      {
        var token := listed[i];
        PurgedOneMore(old(tokens), listed, i, now, faults);
        if IsExpired(token, now) {
          var err := Delete(token, faults(token));
          if err != None && err != Some(NotFound) {
            continue;
          }
          counted := counted + {i};
          count := count + 1;
        }
      }
      assert listed[..|listed|] == listed;
    }
  }

  lemma PurgedOneMore(tokens: set<Token>, listed: seq<Token>, i: nat, now: int, faults: Token -> Fault)
    requires i < |listed|
    ensures var before := Purged(tokens, Among(listed[..i]), now, faults);
            Purged(tokens, Among(listed[..i + 1]), now, faults) ==
              if IsExpired(listed[i], now) && faults(listed[i]) != Refused then before - Named(before, listed[i])
              else before
  {
    assert Among(listed[..i + 1]) == Among(listed[..i]) + {listed[i]};
  }
}
