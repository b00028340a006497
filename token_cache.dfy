/** The server's two-legged OAuth access-token cache: one cached token with
    an expiry time, and at most one token request to the authentication
    endpoint in flight, which later callers join instead of sending their
    own.

    The JavaScript keeps this in three module variables (the token, its
    expiry and the pending promise). Here the same state is a `State`
    value with pure transition functions `OnCall` and `OnSettle`, which
    serve as its specification, and a class `AccessTokenCache` whose methods
    update the fields step by step and are proved to agree with them.
    Asynchrony becomes two explicit events: a caller asks for a token at
    time `now` (`OnCall`), and the pending token request settles at time
    `now` with a grant or an error (`OnSettle`). */
module TokenCache {
  import opened Wrappers
  import opened Http

  /** `expires_in || 3600`: the lifetime, in seconds, used when the token
      response has none (or says 0). */
  const DefaultExpiresIn := 3600
  /** Seconds taken off every lifetime so that a token is dropped before
      the issuer considers it expired. */
  const SafetyMarginSeconds := 60
  const MillisPerSecond := 1000

  /** `APS_CLIENT_ID` and `APS_CLIENT_SECRET` as read from the environment. */
  datatype Credentials = Credentials(clientId: Option<string>, clientSecret: Option<string>)

  /** A JavaScript string that is neither undefined nor empty. */
  predicate Present(v: Option<string>) {
    v.Some? && v.value != ""
  }

  predicate Configured(c: Credentials) {
    Present(c.clientId) && Present(c.clientSecret)
  }

  const MissingCredentials := JsError("APS_CLIENT_ID and APS_CLIENT_SECRET must be set in .env file", None)

  /** The cache. `inFlight` is "the pending promise is not null"; `waiting`
      lists the callers suspended on that promise, the one that started it
      first. `issued` and `settled` count the token requests sent to the
      authentication endpoint and the ones that have come back. */
  datatype State = State(
    cachedToken: Option<string>,
    tokenExpiry: Option<int>,
    inFlight: bool,
    waiting: seq<nat>,
    issued: nat,
    settled: nat)

  const Initial := State(None, None, false, [], 0, 0)

  /** Single flight: at most one token request is outstanding, it is
      outstanding exactly while the promise is pending, and somebody is
      waiting on it exactly then. */
  predicate Inv(s: State) {
    && s.settled <= s.issued <= s.settled + 1
    && (s.inFlight <==> s.issued == s.settled + 1)
    && (s.inFlight <==> s.waiting != [])
  }

  /** `cachedToken && tokenExpiry && Date.now() < tokenExpiry`. */
  predicate Usable(s: State, now: nat) {
    Present(s.cachedToken) && s.tokenExpiry.Some? && s.tokenExpiry.value != 0 && now < s.tokenExpiry.value
  }

  /** What a call of `getAccessToken` does at once: return the cached token,
      wait on the pending request, fail on missing credentials, or start a
      new request and wait on it. */
  datatype Reply = Cached(token: string) | Joined | Started | Refused(error: JsError)

  datatype Step = Step(next: State, reply: Reply)

  /** The caller `caller` calls `getAccessToken` at time `now`. */
  function OnCall(creds: Credentials, s: State, caller: nat, now: nat): (t: Step)
    ensures t.reply.Cached? <==> Usable(s, now)
    ensures t.reply.Cached? ==> t.next == s && Some(t.reply.token) == s.cachedToken
    ensures t.reply.Joined? <==> !Usable(s, now) && s.inFlight
    ensures t.reply.Refused? <==> !Usable(s, now) && !s.inFlight && !Configured(creds)
    ensures t.reply.Refused? ==> t.next == s && t.reply.error == MissingCredentials
    ensures t.reply.Joined? || t.reply.Started? ==> t.next.inFlight && t.next.waiting == (if s.inFlight then s.waiting else []) + [caller]
    ensures t.next.cachedToken == s.cachedToken && t.next.tokenExpiry == s.tokenExpiry
    ensures t.next.issued == (if t.reply.Started? then s.issued + 1 else s.issued)
    ensures t.next.settled == s.settled
    ensures s.inFlight ==> t.next.issued == s.issued
    ensures Inv(s) ==> Inv(t.next)
  {
    if Usable(s, now) then Step(s, Cached(s.cachedToken.value))
    else if s.inFlight then Step(s.(waiting := s.waiting + [caller]), Joined)
    else if !Configured(creds) then Step(s, Refused(MissingCredentials))
    else Step(s.(inFlight := true, waiting := [caller], issued := s.issued + 1), Started)
  }

  /** What the authentication endpoint answered: `access_token` (absent
      when the body has none) and `expires_in` in seconds, 0 standing for
      "absent or zero" since `||` treats both alike; or a thrown error. */
  datatype Grant = Granted(accessToken: Option<string>, expiresIn: int) | Denied(error: JsError)

  /** `Date.now() + ((expires_in || 3600) - 60) * 1000`, in milliseconds. */
  function Expiry(now: nat, expiresIn: int): (t: int)
    ensures expiresIn == 0 ==> t == now + (DefaultExpiresIn - SafetyMarginSeconds) * MillisPerSecond
    ensures expiresIn != 0 ==> t == now + (expiresIn - SafetyMarginSeconds) * MillisPerSecond
    ensures expiresIn > SafetyMarginSeconds || expiresIn == 0 ==> t > now
  {
    var lifetime := if expiresIn == 0 then DefaultExpiresIn else expiresIn;
    now + (lifetime - SafetyMarginSeconds) * MillisPerSecond
  }

  /** What every waiting caller receives when the request settles. */
  datatype Answer = Delivered(token: Option<string>) | Failed(error: JsError)

  datatype Settlement = Settlement(next: State, callers: seq<nat>, answer: Answer)

  /** The pending token request settles at time `now`. */
  function OnSettle(s: State, now: nat, grant: Grant): (d: Settlement)
    requires s.inFlight
    ensures !d.next.inFlight && d.next.waiting == []
    ensures d.callers == s.waiting
    ensures d.next.issued == s.issued && d.next.settled == s.settled + 1
    ensures grant.Denied? ==> d.next.cachedToken == s.cachedToken && d.next.tokenExpiry == s.tokenExpiry
    ensures grant.Denied? ==> d.answer == Failed(grant.error)
    ensures grant.Granted? ==> d.next.cachedToken == grant.accessToken && d.answer == Delivered(grant.accessToken)
    ensures grant.Granted? ==> d.next.tokenExpiry == Some(Expiry(now, grant.expiresIn))
    ensures Inv(s) ==> Inv(d.next)
  {
    var cleared := s.(inFlight := false, waiting := [], settled := s.settled + 1);
    match grant
    case Granted(token, expiresIn) =>
      Settlement(cleared.(cachedToken := token, tokenExpiry := Some(Expiry(now, expiresIn))), s.waiting, Delivered(token))
    case Denied(error) =>
      Settlement(cleared, s.waiting, Failed(error))
  }

  /** An event seen by the cache. */
  datatype Event = Call(caller: nat, now: nat) | Respond(now: nat, grant: Grant)

  /** One event; a response with no request outstanding cannot happen and
      leaves the state as it is. */
  function Apply(creds: Credentials, s: State, e: Event): State {
    match e
    case Call(caller, now) => OnCall(creds, s, caller, now).next
    case Respond(now, grant) => if s.inFlight then OnSettle(s, now, grant).next else s
  }

  function Run(creds: Credentials, s: State, events: seq<Event>): State
    decreases |events|
  {
    if events == [] then s else Run(creds, Apply(creds, s, events[0]), events[1..])
  }

  /** Single flight holds after every sequence of events. */
  lemma {:induction false} RunPreservesInv(creds: Credentials, s: State, events: seq<Event>)
    requires Inv(s)
    ensures Inv(Run(creds, s, events))
    decreases |events|
  {
    if events != [] {
      var s' := Apply(creds, s, events[0]);
      assert Inv(s');
      RunPreservesInv(creds, s', events[1..]);
    }
  }

  /** From a fresh cache, whatever happens, the authentication endpoint has
      at most one unanswered request. */
  lemma SingleFlight(creds: Credentials, events: seq<Event>)
    ensures var s := Run(creds, Initial, events); s.settled <= s.issued <= s.settled + 1
  {
    RunPreservesInv(creds, Initial, events);
  }

  /** Calls of `callers`, in order, all at time `now`. */
  function Calls(callers: seq<nat>, now: nat): (events: seq<Event>)
    ensures |events| == |callers|
    ensures forall i :: 0 <= i < |callers| ==> events[i] == Call(callers[i], now)
  {
    if callers == [] then [] else [Call(callers[0], now)] + Calls(callers[1..], now)
  }

  /** A burst of calls while the cache cannot serve: once a request is in
      flight, every further caller joins it and no request is added. */
  lemma {:induction false} JoinersAddNoRequest(creds: Credentials, s: State, callers: seq<nat>, now: nat)
    requires s.inFlight && !Usable(s, now)
    ensures var r := Run(creds, s, Calls(callers, now));
      && r.inFlight && r.issued == s.issued && r.settled == s.settled
      && r.waiting == s.waiting + callers
      && r.cachedToken == s.cachedToken && r.tokenExpiry == s.tokenExpiry
    decreases |callers|
  {
    if callers != [] {
      var events := Calls(callers, now);
      var s' := OnCall(creds, s, callers[0], now).next;
      assert s' == s.(waiting := s.waiting + [callers[0]]);
      assert events[1..] == Calls(callers[1..], now);
      JoinersAddNoRequest(creds, s', callers[1..], now);
      assert s.waiting + [callers[0]] + callers[1..] == s.waiting + callers;
    }
  }

  /** Any number of simultaneous callers facing an empty or expired cache
      with no request in flight cause exactly one token request, and all of
      them wait on it, in calling order. */
  lemma BurstSendsOneRequest(creds: Credentials, s: State, callers: seq<nat>, now: nat)
    requires Inv(s) && !s.inFlight && !Usable(s, now) && Configured(creds) && callers != []
    ensures var r := Run(creds, s, Calls(callers, now));
      && r.inFlight && r.issued == s.issued + 1 && r.waiting == callers
  {
    var events := Calls(callers, now);
    var s' := OnCall(creds, s, callers[0], now).next;
    assert events[1..] == Calls(callers[1..], now);
    JoinersAddNoRequest(creds, s', callers[1..], now);
    assert [callers[0]] + callers[1..] == callers;
  }

  /** A token granted at time `now` is served, without a request, to every
      call before its expiry (when its lifetime exceeds the margin), and
      not to a call at or after it. */
  lemma GrantedTokenServedUntilExpiry(s: State, now: nat, token: string, expiresIn: int, later: nat, caller: nat, creds: Credentials)
    requires s.inFlight && token != "" && (expiresIn == 0 || expiresIn > SafetyMarginSeconds)
    ensures var s' := OnSettle(s, now, Granted(Some(token), expiresIn)).next;
      var t := OnCall(creds, s', caller, later);
      && (later < Expiry(now, expiresIn) ==> t.reply == Cached(token) && t.next == s')
      && (later >= Expiry(now, expiresIn) ==> !t.reply.Cached?)
  {
  }

  /** The default lifetime gives a token cached 3540 seconds. */
  lemma DefaultLifetime(now: nat)
    ensures Expiry(now, 0) == Expiry(now, DefaultExpiresIn) == now + 3540000
  {
  }

  /** A failed token request never touches the cached token or its expiry,
      so a token that was usable before is usable after. */
  lemma FailureKeepsCache(s: State, now: nat, error: JsError, later: nat)
    requires s.inFlight
    ensures var s' := OnSettle(s, now, Denied(error)).next;
      Usable(s', later) <==> Usable(s, later)
  {
  }

  /** A failed request and the next one do not mix: the callers of the
      first see its failure, a call after it settles starts a fresh request
      with only itself waiting, and that request's grant reaches only its
      own callers. */
  lemma FailureIsolation(creds: Credentials, s: State, failedAt: nat, error: JsError, later: nat, caller: nat,
                         grantedAt: nat, token: Option<string>, expiresIn: int)
    requires Inv(s) && s.inFlight && Configured(creds)
    ensures var first := OnSettle(s, failedAt, Denied(error));
      && first.callers == s.waiting && first.answer == Failed(error)
      && (!Usable(first.next, later) ==>
            var retry := OnCall(creds, first.next, caller, later);
            && retry.reply == Started && retry.next.issued == s.issued + 1
            && var second := OnSettle(retry.next, grantedAt, Granted(token, expiresIn));
               second.callers == [caller] && second.answer == Delivered(token))
  {
  }

  /** A token granted at time 0 with a lifetime of 3600 seconds is served
      from the cache at 100 seconds, and a call at 3600 seconds, past the
      3540-second mark, sends a new request. */
  lemma CachedThenRefreshed(creds: Credentials, caller: nat)
    requires Configured(creds)
    ensures var s := OnCall(creds, Initial, caller, 0);
      && s.reply == Started
      && var cached := OnSettle(s.next, 0, Granted(Some("tok-A"), 3600)).next;
         && OnCall(creds, cached, caller, 100 * MillisPerSecond).reply == Cached("tok-A")
         && OnCall(creds, cached, caller, 3600 * MillisPerSecond).reply == Started
  {
  }

  /** The cached token and the pending request, as fields updated in place. */
  class AccessTokenCache {
    const credentials: Credentials
    var cachedToken: Option<string>
    var tokenExpiry: Option<int>
    var inFlight: bool
    var waiting: seq<nat>
    ghost var issued: nat
    ghost var settled: nat

    ghost function Snapshot(): State
      reads this
    {
      State(cachedToken, tokenExpiry, inFlight, waiting, issued, settled)
    }

    ghost predicate Valid()
      reads this
    {
      Inv(Snapshot())
    }

    /** The module's initial values: no token, no expiry, no promise. */
    constructor (credentials: Credentials)
      ensures Valid() && Snapshot() == Initial && this.credentials == credentials
    {
      this.credentials := credentials;
      cachedToken := None;
      tokenExpiry := None;
      inFlight := false;
      waiting := [];
      issued := 0;
      settled := 0;
    }

    /** `getAccessToken()` up to its first suspension. */
    method GetAccessToken(caller: nat, now: nat) returns (reply: Reply)
      requires Valid()
      modifies this
      ensures Valid()
      ensures Step(Snapshot(), reply) == OnCall(credentials, old(Snapshot()), caller, now)
    {
      if Present(cachedToken) && tokenExpiry.Some? && tokenExpiry.value != 0 && now < tokenExpiry.value {
        return Cached(cachedToken.value);
      }
      if inFlight {
        waiting := waiting + [caller];
        return Joined;
      }
      if !Configured(credentials) {
        return Refused(MissingCredentials);
      }
      inFlight := true;
      waiting := [caller];
      issued := issued + 1;
      return Started;
    }

    /** The token request settles: on success the token and its expiry are
        stored; in every case the promise is cleared and all waiting callers
        receive the same answer. */
    method Settle(now: nat, grant: Grant) returns (callers: seq<nat>, answer: Answer)
      requires Valid() && inFlight
      modifies this
      ensures Valid()
      ensures Settlement(Snapshot(), callers, answer) == OnSettle(old(Snapshot()), now, grant)
    {
      callers := waiting;
      if grant.Granted? {
        cachedToken := grant.accessToken;
        tokenExpiry := Some(Expiry(now, grant.expiresIn));
        answer := Delivered(cachedToken);
      } else {
        answer := Failed(grant.error);
      }
      inFlight := false;
      waiting := [];
      settled := settled + 1;
    }
  }
}
