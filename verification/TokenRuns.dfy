/**
 Purging over whole runs: exactly when it takes away nothing a client could still use.

 Tokens are created, logged out, deleted and purged in any order under a clock
 that never goes back. A purge and a logout may see any earlier state of the
 store, and a purge may fail on any tokens. The same run is followed twice, with
 its purges and with its purges doing nothing.
 */
module TokenRuns {
  import opened KubeApi
  import opened Tokens

  // seen is the state that the caches show, at most the latest.
  datatype Event =
    | Created(token: Token)
    | Deleted(token: Token)
    | Logout(seen: nat, auth: string)
    | Purging(seen: nat, faults: Token -> Fault)

  datatype Step = Step(time: int, event: Event)

  function SeenAt(event: Event, i: nat): (j: nat)
    ensures j <= i
  {
    if (event.Logout? || event.Purging?) && event.seen < i then event.seen else i
  }

  ghost function Next(tokens: set<Token>, seen: set<Token>, step: Step, purging: bool): set<Token> {
    match step.event
    case Created(token) => if Named(tokens, token) == {} then tokens + {token} else tokens
    case Deleted(token) => tokens - Named(tokens, token)
    case Logout(_, auth) =>
      set t | t in tokens && !exists x :: x in seen && Accepts(seen, auth, step.time, x) && t in Named(tokens, x)
    case Purging(_, faults) => if purging then Purged(tokens, seen, step.time, faults) else tokens
  }

  ghost function StateAt(init: set<Token>, steps: seq<Step>, i: nat, purging: bool): set<Token>
    requires i <= |steps|
  {
    if i == 0 then init
    else
      var step := steps[i - 1];
      var seen := StateAt(init, steps, SeenAt(step.event, i - 1), purging);
      Next(StateAt(init, steps, i - 1, purging), seen, step, purging)
  }

  ghost predicate ClockNeverGoesBack(steps: seq<Step>) {
    forall i, j | 0 <= i < j < |steps| :: steps[i].time <= steps[j].time
  }

  // Every token of the run.
  ghost function Everything(init: set<Token>, steps: seq<Step>): set<Token> {
    init + set i | 0 <= i < |steps| && steps[i].event.Created? :: steps[i].event.token
  }

  ghost predicate KeysDistinct(tokens: set<Token>) {
    forall a, b | a in tokens && b in tokens && a.key == b.key :: a == b
  }

  ghost predicate NamesDistinct(tokens: set<Token>) {
    forall a, b | a in tokens && b in tokens && a.ns == b.ns && a.name == b.name :: a == b
  }

  // A token that some credential presents.
  predicate Presentable(t: Token) {
    t.name != "" && t.key != "" && !HasColon(t.name) && !HasColon(t.key)
  }

  // A token that no longer counts, among every token or among those presentable.
  predicate Dead(t: Token, now: int, every: bool) { IsExpired(t, now) || !(every || Presentable(t)) }

  ghost predicate AgreeOnLiving(a: set<Token>, b: set<Token>, now: int, every: bool) {
    forall t | !Dead(t, now, every) :: t in a <==> t in b
  }

  ghost predicate SameAnswers(tokens: set<Token>, tokens': set<Token>, now: int) {
    forall auth, t :: Accepts(tokens, auth, now, t) <==> Accepts(tokens', auth, now, t)
  }

  lemma AgreeLater(a: set<Token>, b: set<Token>, now: int, later: int, every: bool)
    requires AgreeOnLiving(a, b, now, every) && now <= later
    ensures AgreeOnLiving(a, b, later, every)
  {
    forall t | !Dead(t, later, every)
      ensures t in a <==> t in b
    {
      if IsExpired(t, now) {
        ExpiryIsFinal(t, now, later);
      }
    }
  }

  lemma AcceptedIsLiving(tokens: set<Token>, auth: string, now: int, t: Token)
    ensures Accepts(tokens, auth, now, t) ==> t in tokens && Presentable(t) && !IsExpired(t, now)
  {
    if Accepts(tokens, auth, now, t) {
      var parts := SplitTokenParts(auth);
      assert t in Having(tokens, parts.key);
      OnlyCredentialsSplit(auth);
      CredentialRoundTrip(parts.name, parts.key);
    }
  }

  // Under distinct keys lookups see the presentable living tokens, and nothing else.
  lemma SameAnswersIff(a: set<Token>, b: set<Token>, u: set<Token>, now: int)
    requires a <= u && b <= u && KeysDistinct(u)
    ensures SameAnswers(a, b, now) <==> AgreeOnLiving(a, b, now, false)
  {
    if SameAnswers(a, b, now) {
      forall t | !Dead(t, now, false)
        ensures t in a <==> t in b
      {
        LivingIsAccepted(a, u, now, t);
        LivingIsAccepted(b, u, now, t);
      }
    }
    if AgreeOnLiving(a, b, now, false) {
      forall auth, t
        ensures Accepts(a, auth, now, t) <==> Accepts(b, auth, now, t)
      {
        AgreeingAccept(a, b, u, auth, now, t, false);
      }
    }
  }

  lemma LivingIsAccepted(tokens: set<Token>, u: set<Token>, now: int, t: Token)
    requires tokens <= u && KeysDistinct(u) && !Dead(t, now, false)
    ensures Accepts(tokens, Credential(t.name, t.key), now, t) <==> t in tokens
  {
    CredentialRoundTrip(t.name, t.key);
    if t in tokens {
      assert Having(tokens, t.key) == {t};
    } else {
      assert t !in Having(tokens, t.key);
    }
  }

  lemma AgreeingAccept(a: set<Token>, b: set<Token>, u: set<Token>, auth: string, now: int, t: Token, every: bool)
    requires a <= u && b <= u && KeysDistinct(u) && AgreeOnLiving(a, b, now, every)
    ensures Accepts(a, auth, now, t) <==> Accepts(b, auth, now, t)
  {
    AcceptedIsLiving(a, auth, now, t);
    AcceptedIsLiving(b, auth, now, t);
    if t in a && t in b {
      var key := SplitTokenParts(auth).key;
      assert t.key == key ==> Having(a, key) == {t} && Having(b, key) == {t};
      assert t.key != key ==> t !in Having(a, key) && t !in Having(b, key);
    }
  }

  // ---- One purge ----------------------------------------------------------------

  // An expired token of the listing has the name of t, and its delete is let through.
  ghost predicate Hit(t: Token, listed: set<Token>, now: int, faults: Token -> Fault) {
    exists x :: x in listed && IsExpired(x, now) && faults(x) != Refused && x.ns == t.ns && x.name == t.name
  }

  // With distinct keys a purge changes no answer exactly when no presentable token
  // still alive has the name of an expired one of the listing. The listing may be old,
  // and then another token may have got that name.
  lemma PurgeInvisibleIff(tokens: set<Token>, listed: set<Token>, now: int, faults: Token -> Fault)
    requires KeysDistinct(tokens)
    ensures SameAnswers(tokens, Purged(tokens, listed, now, faults), now) <==>
      forall t | t in tokens && Presentable(t) && !IsExpired(t, now) :: !Hit(t, listed, now, faults)
  {
    var left := Purged(tokens, listed, now, faults);
    assert forall t :: t in left <==> t in tokens && !Hit(t, listed, now, faults);
    SameAnswersIff(tokens, left, tokens, now);
  }

  // And an undisturbed purge with a fresh listing leaves exactly the tokens that live.
  lemma PurgeLeavesTheLiving(tokens: set<Token>, now: int)
    requires NamesDistinct(tokens)
    ensures Purged(tokens, tokens, now, _ => NoFault) == set t | t in tokens && !IsExpired(t, now)
  {
    var left := Purged(tokens, tokens, now, _ => NoFault);
    forall t
      ensures t in left <==> t in tokens && !IsExpired(t, now)
    {
      if t in tokens && t !in left {
        var x :| x in tokens && IsExpired(x, now) && x.ns == t.ns && x.name == t.name;
        assert x == t;
      }
    }
  }

  // ---- Runs ---------------------------------------------------------------------

  // Whether a step keeps the run with purges and the run without in agreement: a
  // purge hits nothing living, and a token that is created finds its name free in
  // both runs or in neither.
  ghost predicate HarmlessHere(left: set<Token>, all: set<Token>, seen: set<Token>, step: Step, every: bool) {
    match step.event
    case Created(token) => Dead(token, step.time, every) || (Named(left, token) == {} <==> Named(all, token) == {})
    case Purging(_, faults) => forall t | t in left && !Dead(t, step.time, every) :: !Hit(t, seen, step.time, faults)
    case _ => true
  }

  ghost predicate Harmless(init: set<Token>, steps: seq<Step>, i: nat, every: bool)
    requires i < |steps|
  {
    HarmlessHere(StateAt(init, steps, i, true), StateAt(init, steps, i, false),
                 StateAt(init, steps, SeenAt(steps[i].event, i), true), steps[i], every)
  }

  lemma NextStays(tokens: set<Token>, seen: set<Token>, step: Step, purging: bool, u: set<Token>)
    requires tokens <= u && (step.event.Created? ==> step.event.token in u)
    ensures Next(tokens, seen, step, purging) <= u
  {
  }

  lemma NextAgreesIff(left: set<Token>, all: set<Token>, seenLeft: set<Token>, seenAll: set<Token>, step: Step,
                      u: set<Token>, every: bool)
    requires AgreeOnLiving(left, all, step.time, every) && AgreeOnLiving(seenLeft, seenAll, step.time, every)
    requires left <= u && all <= u && seenLeft <= u && seenAll <= u && KeysDistinct(u)
    ensures HarmlessHere(left, all, seenLeft, step, every) <==>
      AgreeOnLiving(Next(left, seenLeft, step, true), Next(all, seenAll, step, false), step.time, every)
  {
    match step.event
    case Created(token) => CreatedAgreesIff(left, all, token, step.time, every);
    case Deleted(token) =>
    case Logout(_, auth) =>
      forall x
        ensures Accepts(seenLeft, auth, step.time, x) <==> Accepts(seenAll, auth, step.time, x)
        ensures Accepts(seenLeft, auth, step.time, x) ==> x in seenLeft && x in seenAll
      {
        AgreeingAccept(seenLeft, seenAll, u, auth, step.time, x, every);
        AcceptedIsLiving(seenLeft, auth, step.time, x);
        AcceptedIsLiving(seenAll, auth, step.time, x);
      }
    case Purging(_, faults) =>
      var next := Purged(left, seenLeft, step.time, faults);
      assert forall t :: t in next <==> t in left && !Hit(t, seenLeft, step.time, faults);
  }

  lemma CreatedAgreesIff(left: set<Token>, all: set<Token>, token: Token, now: int, every: bool)
    requires AgreeOnLiving(left, all, now, every)
    ensures var left' := if Named(left, token) == {} then left + {token} else left;
            var all' := if Named(all, token) == {} then all + {token} else all;
            AgreeOnLiving(left', all', now, every) <==>
              Dead(token, now, every) || (Named(left, token) == {} <==> Named(all, token) == {})
  {
    assert token in left ==> token in Named(left, token);
    assert token in all ==> token in Named(all, token);
  }

  // The states at the i-th step agree, and so do those its caches show.
  lemma StepAgreesIff(init: set<Token>, steps: seq<Step>, i: nat, every: bool)
    requires i < |steps| && KeysDistinct(Everything(init, steps))
    requires AgreeOnLiving(StateAt(init, steps, i, true), StateAt(init, steps, i, false), steps[i].time, every)
    requires var j := SeenAt(steps[i].event, i);
             AgreeOnLiving(StateAt(init, steps, j, true), StateAt(init, steps, j, false), steps[i].time, every)
    ensures Harmless(init, steps, i, every) <==>
      AgreeOnLiving(StateAt(init, steps, i + 1, true), StateAt(init, steps, i + 1, false), steps[i].time, every)
  {
    var j := SeenAt(steps[i].event, i);
    StatesStay(init, steps, i);
    StatesStay(init, steps, j);
    NextAgreesIff(StateAt(init, steps, i, true), StateAt(init, steps, i, false),
                  StateAt(init, steps, j, true), StateAt(init, steps, j, false),
                  steps[i], Everything(init, steps), every);
  }

  lemma {:induction false} StatesStay(init: set<Token>, steps: seq<Step>, i: nat)
    requires i <= |steps|
    ensures StateAt(init, steps, i, true) <= Everything(init, steps)
    ensures StateAt(init, steps, i, false) <= Everything(init, steps)
  {
    if i > 0 {
      var step, j := steps[i - 1], SeenAt(steps[i - 1].event, i - 1);
      StatesStay(init, steps, i - 1);
      assert step.event.Created? ==> step.event.token in Everything(init, steps);
      NextStays(StateAt(init, steps, i - 1, true), StateAt(init, steps, j, true), step, true, Everything(init, steps));
      NextStays(StateAt(init, steps, i - 1, false), StateAt(init, steps, j, false), step, false,
                Everything(init, steps));
    }
  }

  predicate Reached(steps: seq<Step>, i: nat, now: int) {
    i <= |steps| && (i > 0 ==> steps[i - 1].time <= now)
  }

  lemma {:induction false} RunAgrees(init: set<Token>, steps: seq<Step>, i: nat, now: int, every: bool)
    requires Reached(steps, i, now) && ClockNeverGoesBack(steps) && KeysDistinct(Everything(init, steps))
    requires forall k | 0 <= k < i :: Harmless(init, steps, k, every)
    ensures AgreeOnLiving(StateAt(init, steps, i, true), StateAt(init, steps, i, false), now, every)
  {
    if i > 0 {
      var time, j := steps[i - 1].time, SeenAt(steps[i - 1].event, i - 1);
      RunAgrees(init, steps, i - 1, time, every);
      RunAgrees(init, steps, j, time, every);
      StepAgreesIff(init, steps, i - 1, every);
      AgreeLater(StateAt(init, steps, i, true), StateAt(init, steps, i, false), time, now, every);
    }
  }

  // In every state of a run, looked at at any later time, the two runs hold the same
  // living tokens.
  ghost predicate AlwaysAgree(init: set<Token>, steps: seq<Step>, every: bool) {
    forall i, now | 0 <= i && Reached(steps, i, now) ::
      AgreeOnLiving(StateAt(init, steps, i, true), StateAt(init, steps, i, false), now, every)
  }

  // And they answer every lookup alike.
  ghost predicate AlwaysAnswerAlike(init: set<Token>, steps: seq<Step>) {
    forall i, now | 0 <= i && Reached(steps, i, now) ::
      SameAnswers(StateAt(init, steps, i, true), StateAt(init, steps, i, false), now)
  }

  // With distinct keys, purging costs no living token exactly when every step is
  // harmless.
  lemma LivingTokensStayIff(init: set<Token>, steps: seq<Step>, every: bool)
    requires ClockNeverGoesBack(steps) && KeysDistinct(Everything(init, steps))
    ensures AlwaysAgree(init, steps, every) <==> forall i | 0 <= i < |steps| :: Harmless(init, steps, i, every)
  {
    if AlwaysAgree(init, steps, every) {
      forall i | 0 <= i < |steps|
        ensures Harmless(init, steps, i, every)
      {
        var j := SeenAt(steps[i].event, i);
        assert Reached(steps, i, steps[i].time) && Reached(steps, j, steps[i].time);
        assert Reached(steps, i + 1, steps[i].time);
        StepAgreesIff(init, steps, i, every);
      }
    }
    if forall i | 0 <= i < |steps| :: Harmless(init, steps, i, every) {
      forall i, now | 0 <= i && Reached(steps, i, now)
        ensures AgreeOnLiving(StateAt(init, steps, i, true), StateAt(init, steps, i, false), now, every)
      {
        RunAgrees(init, steps, i, now, every);
      }
    }
  }

  // And it is invisible - at any time, a lookup in any state the run has reached so
  // far, the latest or an older one, accepts what it would accept had nothing ever
  // been purged - exactly when every step is harmless to presentable tokens.
  lemma PurgingIsInvisibleIff(init: set<Token>, steps: seq<Step>)
    requires ClockNeverGoesBack(steps) && KeysDistinct(Everything(init, steps))
    ensures AlwaysAnswerAlike(init, steps) <==> forall i | 0 <= i < |steps| :: Harmless(init, steps, i, false)
  {
    LivingTokensStayIff(init, steps, false);
    forall i, now | 0 <= i && Reached(steps, i, now)
      ensures SameAnswers(StateAt(init, steps, i, true), StateAt(init, steps, i, false), now)
         <==> AgreeOnLiving(StateAt(init, steps, i, true), StateAt(init, steps, i, false), now, false)
    {
      StatesStay(init, steps, i);
      SameAnswersIff(StateAt(init, steps, i, true), StateAt(init, steps, i, false), Everything(init, steps), now);
    }
  }

  // No name used twice is enough for that.
  lemma {:induction false} DistinctNamesAreHarmless(init: set<Token>, steps: seq<Step>, n: nat)
    requires ClockNeverGoesBack(steps) && n <= |steps|
    requires KeysDistinct(Everything(init, steps)) && NamesDistinct(Everything(init, steps))
    ensures forall i | 0 <= i < n :: Harmless(init, steps, i, true) && Harmless(init, steps, i, false)
  {
    if n > 0 {
      DistinctNamesAreHarmless(init, steps, n - 1);
      DistinctNamesStep(init, steps, n - 1);
    }
  }

  lemma DistinctNamesStep(init: set<Token>, steps: seq<Step>, i: nat)
    requires ClockNeverGoesBack(steps) && i < |steps|
    requires KeysDistinct(Everything(init, steps)) && NamesDistinct(Everything(init, steps))
    requires forall k | 0 <= k < i :: Harmless(init, steps, k, true)
    ensures Harmless(init, steps, i, true) && Harmless(init, steps, i, false)
  {
    RunAgrees(init, steps, i, steps[i].time, true);
    StatesStay(init, steps, i);
    StatesStay(init, steps, SeenAt(steps[i].event, i));
    assert steps[i].event.Created? ==> steps[i].event.token in Everything(init, steps);
    DistinctNamesHere(StateAt(init, steps, i, true), StateAt(init, steps, i, false),
                      StateAt(init, steps, SeenAt(steps[i].event, i), true), steps[i], Everything(init, steps));
  }

  lemma DistinctNamesHere(left: set<Token>, all: set<Token>, seen: set<Token>, step: Step, u: set<Token>)
    requires left <= u && all <= u && seen <= u && NamesDistinct(u) && (step.event.Created? ==> step.event.token in u)
    requires AgreeOnLiving(left, all, step.time, true)
    ensures HarmlessHere(left, all, seen, step, true) && HarmlessHere(left, all, seen, step, false)
  {
    if step.event.Created? {
      var token := step.event.token;
      assert Named(left, token) == if token in left then {token} else {};
      assert Named(all, token) == if token in all then {token} else {};
    }
  }

  lemma PurgingIsInvisible(init: set<Token>, steps: seq<Step>)
    requires ClockNeverGoesBack(steps)
    requires KeysDistinct(Everything(init, steps)) && NamesDistinct(Everything(init, steps))
    ensures AlwaysAgree(init, steps, true) && AlwaysAnswerAlike(init, steps)
  {
    DistinctNamesAreHarmless(init, steps, |steps|);
    LivingTokensStayIff(init, steps, true);
    PurgingIsInvisibleIff(init, steps);
  }

  // ---- Logging out --------------------------------------------------------------------

  // A logout whose cache shows the present state takes the token away, and of the others
  // at most those of its name. With distinct keys its credential is accepted no more.
  lemma LogoutEndsIt(init: set<Token>, steps: seq<Step>, i: nat, auth: string, t: Token, now: int, purging: bool)
    requires i < |steps| && steps[i].event == Logout(i, auth)
    requires Accepts(StateAt(init, steps, i, purging), auth, steps[i].time, t)
    ensures var before, after := StateAt(init, steps, i, purging), StateAt(init, steps, i + 1, purging);
            && t !in after && after <= before
            && (forall x | x in before && (x.ns != t.ns || x.name != t.name) :: x in after)
            && (KeysDistinct(before) ==> forall x :: !Accepts(after, auth, now, x))
  {
    var before, after := StateAt(init, steps, i, purging), StateAt(init, steps, i + 1, purging);
    AcceptedIff(before, auth, steps[i].time, t);
    assert t in Named(before, t);
    forall x | KeysDistinct(before) && Accepts(after, auth, now, x)
      ensures false
    {
      AcceptedIff(after, auth, now, x);
      SameTextSameKey(t, x);
    }
  }

  lemma SameTextSameKey(t: Token, x: Token)
    requires t.name + ":" + t.key == x.name + ":" + x.key
    requires !HasColon(t.name) && !HasColon(t.key) && !HasColon(x.name) && !HasColon(x.key)
    ensures t.name == x.name && t.key == x.key
  {
    CredentialRoundTrip(t.name, t.key);
    CredentialRoundTrip(x.name, x.key);
  }

  // ---- A name used twice ----------------------------------------------------------

  // A token is deleted, another gets its name, and a purge with a listing from before
  // deletes that one, which has long to live.
  const FIRST_A := Token("kube-system", "token-a", "k1", 0, 1000)
  const SECOND_A := Token("kube-system", "token-a", "k2", 2_000_000_000, 100000)

  function ReusedName(): seq<Step> {
    [ Step(1_500_000_000, Deleted(FIRST_A)),
      Step(2_000_000_000, Created(SECOND_A)),
      Step(3_000_000_000, Purging(0, _ => NoFault)) ]
  }

  lemma ReusedNameStored(purging: bool)
    ensures StateAt({FIRST_A}, ReusedName(), 2, purging) == {SECOND_A}
  {
    var init, steps := {FIRST_A}, ReusedName();
    assert Named(init, FIRST_A) == init;
    assert StateAt(init, steps, 1, purging) == init - Named(init, FIRST_A) == {};
    assert Named({}, SECOND_A) == {};
    assert StateAt(init, steps, 2, purging) == {} + {SECOND_A};
  }

  lemma ReusedNameIsPurged()
    ensures ClockNeverGoesBack(ReusedName()) && KeysDistinct(Everything({FIRST_A}, ReusedName()))
    ensures StateAt({FIRST_A}, ReusedName(), 3, true) == {} && StateAt({FIRST_A}, ReusedName(), 3, false) == {SECOND_A}
    ensures Accepts({SECOND_A}, Credential("token-a", "k2"), 3_000_000_000, SECOND_A)
  {
    var init, steps := {FIRST_A}, ReusedName();
    ReusedNameStored(true);
    ReusedNameStored(false);
    assert StateAt(init, steps, 0, true) == init && IsExpired(FIRST_A, 3_000_000_000);
    CredentialRoundTrip("token-a", "k2");
    assert Having({SECOND_A}, "k2") == {SECOND_A};
  }

  // ---- Without distinct keys ----------------------------------------------------

  // t is shut out by others with its key, and all of those are about to go.
  ghost predicate Unlocked(tokens: set<Token>, gone: set<Token>, now: int, t: Token) {
    && t in tokens && t !in gone && Presentable(t) && !IsExpired(t, now)
    && Having(tokens, t.key) != {t}
    && Having(tokens, t.key) <= gone + {t}
  }

  // Whatever the keys: taking away expired tokens changes an answer exactly when it
  // leaves some live token alone with its key that was not alone before.
  lemma RemovalInvisibleIff(tokens: set<Token>, gone: set<Token>, now: int)
    requires gone <= tokens && forall t | t in gone :: IsExpired(t, now)
    ensures SameAnswers(tokens, tokens - gone, now) <==> forall t :: !Unlocked(tokens, gone, now, t)
  {
    if t :| Unlocked(tokens, gone, now, t) {
      CredentialRoundTrip(t.name, t.key);
      assert Having(tokens - gone, t.key) == {t};
      assert Accepts(tokens - gone, Credential(t.name, t.key), now, t);
      assert !Accepts(tokens, Credential(t.name, t.key), now, t);
    } else {
      forall auth, t
        ensures Accepts(tokens, auth, now, t) <==> Accepts(tokens - gone, auth, now, t)
      {
        NoneUnlocked(tokens, gone, now, auth, t);
      }
    }
  }

  lemma NoneUnlocked(tokens: set<Token>, gone: set<Token>, now: int, auth: string, t: Token)
    requires gone <= tokens && forall x | x in gone :: IsExpired(x, now)
    requires !Unlocked(tokens, gone, now, t)
    ensures Accepts(tokens, auth, now, t) <==> Accepts(tokens - gone, auth, now, t)
  {
    var parts := SplitTokenParts(auth);
    assert Having(tokens - gone, parts.key) == Having(tokens, parts.key) - gone;
    AcceptedIsLiving(tokens, auth, now, t);
    AcceptedIsLiving(tokens - gone, auth, now, t);
    if Accepts(tokens - gone, auth, now, t) {
      OnlyCredentialsSplit(auth);
      CredentialRoundTrip(parts.name, parts.key);
      assert Presentable(t);
      assert Having(tokens, parts.key) <= gone + {t};
    }
  }

  // Two logins within one second, for 1 and for 1.5 seconds: their iat and exp claims
  // fall into the same seconds, so they get the same key. While both are stored neither
  // gets in; once the first is purged the second does.
  lemma SharedKeyMakesPurgeVisible()
    ensures var first := Token("kube-system", "token-a", "k", 0, 1000);
            var second := Token("kube-system", "token-b", "k", 0, 1500);
            var now := 1_200_000_000;
            && Purged({first, second}, {first, second}, now, _ => NoFault) == {second}
            && (forall auth, t :: !Accepts({first, second}, auth, now, t))
            && Accepts({second}, Credential("token-b", "k"), now, second)
  {
    var first := Token("kube-system", "token-a", "k", 0, 1000);
    var second := Token("kube-system", "token-b", "k", 0, 1500);
    var now := 1_200_000_000;
    CredentialRoundTrip("token-b", "k");
    assert IsExpired(first, now) && !IsExpired(second, now);
    forall auth, t
      ensures !Accepts({first, second}, auth, now, t)
    {
      var found := Having({first, second}, SplitTokenParts(auth).key);
      assert first in found <==> second in found;
    }
    assert Having({second}, "k") == {second};
  }
}
