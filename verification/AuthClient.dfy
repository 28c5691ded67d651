/**
 The browser's single-flight refresh against the server's rotation: one client with
 one cookie, every interleaving of its callers and of the server's other clients,
 every response delivered, and no login or logout of its own in between.
 */
module AuthClient {
  import opened Common
  import T = Tokens

  type Caller = nat
  type Flight = nat

  datatype Reply = Tokens(access: T.Jti, refresh: T.Jti) | Refused

  /** A request on its way out, its answer on its way back, and the promise between its
      handlers and its `finally`. */
  datatype Stage = Sent(cookie: Option<T.Jti>) | Answered(reply: Reply) | Settling(result: Option<T.Jti>)

  datatype State = State(
    server: T.State,
    cookie: Option<T.Jti>,
    accessToken: Option<T.Jti>,
    expiresAt: int,
    inFlight: Option<Flight>,               // refreshInFlight
    flights: map<Flight, Stage>,
    nextFlight: Flight,
    joined: map<Caller, Flight>,            // the promise that a caller awaits
    results: map<Caller, Option<T.Jti>>,    // what a caller was given
    settled: map<Flight, Option<T.Jti>>,
    presentedRotated: bool)                 // whether a request ever carried a rotated token

  const REFRESH_SKEW_MS := 30000

  function Boot(server: T.State, cookie: Option<T.Jti>): State {
    State(server, cookie, None, 0, None, map[], 0, map[], map[], map[], false)
  }

  datatype Event =
    | GetAccessToken(caller: Caller, now: int)
    | ForceRefresh(caller: Caller)
    | Serve(flight: Flight, active: bool, access: T.Jti, refresh: T.Jti)
    | Unreachable(flight: Flight)                // the request never arrives
    | Deliver(flight: Flight, now: int)
    | Finally(flight: Flight)
    | Elsewhere(step: T.Event)                   // time passes, or another client is served

  predicate Enabled(s: State, e: Event) {
    match e
    case GetAccessToken(c, _) => c !in s.joined && c !in s.results
    case ForceRefresh(c) => c !in s.joined && c !in s.results
    case Serve(f, active, a, r) => f in s.flights && s.flights[f].Sent? && T.NewPair(s.server, a, r)
    case Unreachable(f) => f in s.flights && s.flights[f].Sent?
    case Deliver(f, _) => f in s.flights && s.flights[f].Answered?
    case Finally(f) => f in s.flights && s.flights[f].Settling?
    case Elsewhere(step) => T.Enabled(s.server, step) && !PresentsOurs(s, step)
  }

  /** A refresh token in the browser or on its way to or from it. */
  predicate Ours(s: State, token: T.Jti) {
    || s.cookie == Some(token)
    || exists f | f in s.flights ::
         || s.flights[f] == Sent(Some(token))
         || (s.flights[f].Answered? && s.flights[f].reply.Tokens? && s.flights[f].reply.refresh == token)
  }

  /** Whether a step of the server is somebody showing it this client's refresh token. */
  predicate PresentsOurs(s: State, step: T.Event) {
    match step
    case Refresh(token, _, _, _) => Ours(s, token)
    case Logout(_, token) => token.Some? && Ours(s, token.value)
    case _ => false
  }

  /** `refresh`: joins the promise in flight or sends the cookie in a new request. */
  function RefreshCall(s: State, c: Caller): State {
    if s.inFlight.Some? then s.(joined := s.joined[c := s.inFlight.value])
    else
      var f := s.nextFlight;
      s.(inFlight := Some(f), nextFlight := f + 1, flights := s.flights[f := Sent(s.cookie)],
         joined := s.joined[c := f],
         presentedRotated := s.presentedRotated || (s.cookie.Some? && s.cookie.value in s.server.exchanged))
  }

  function TokenIsFresh(s: State, now: int): bool {
    s.accessToken.Some? && now < s.expiresAt - REFRESH_SKEW_MS
  }

  function ServeStep(s: State, f: Flight, active: bool, access: T.Jti, refresh: T.Jti): State
    requires f in s.flights && s.flights[f].Sent?
  {
    var cookie := s.flights[f].cookie;
    if cookie.Some? && T.Exchanges(s.server, cookie.value, active)
    then s.(server := T.RefreshStep(s.server, cookie.value, active, access, refresh),
            flights := s.flights[f := Answered(Tokens(access, refresh))])
    else s.(flights := s.flights[f := Answered(Refused)])
  }

  /** The response sets the cookie, then the handlers run. */
  function DeliverStep(s: State, f: Flight, now: int): State
    requires f in s.flights && s.flights[f].Answered?
  {
    match s.flights[f].reply
    case Tokens(access, refresh) =>
      s.(cookie := Some(refresh), accessToken := Some(access), expiresAt := now + s.server.accessTtl * 1000,
         flights := s.flights[f := Settling(Some(access))])
    case Refused =>
      s.(accessToken := None, expiresAt := 0, flights := s.flights[f := Settling(None)])
  }

  function FinallyStep(s: State, f: Flight): State
    requires f in s.flights && s.flights[f].Settling?
  {
    var result := s.flights[f].result;
    s.(inFlight := None, flights := s.flights - {f}, settled := s.settled[f := result],
       results := map c | c in s.results.Keys + s.joined.Keys && (c in s.results || s.joined[c] == f) ::
         if c in s.joined && s.joined[c] == f then result else s.results[c])
  }

  function Next(s: State, e: Event): State
    requires Enabled(s, e)
  {
    match e
    case GetAccessToken(c, now) =>
      if TokenIsFresh(s, now) then s.(results := s.results[c := s.accessToken]) else RefreshCall(s, c)
    case ForceRefresh(c) => RefreshCall(s, c)
    case Serve(f, active, a, r) => ServeStep(s, f, active, a, r)
    case Unreachable(f) => s.(flights := s.flights[f := Answered(Refused)])
    case Deliver(f, now) => DeliverStep(s, f, now)
    case Finally(f) => FinallyStep(s, f)
    case Elsewhere(step) => s.(server := T.Next(s.server, step))
  }

  predicate Possible(s: State, es: seq<Event>)
    decreases es
  {
    es == [] || (Enabled(s, es[0]) && Possible(Next(s, es[0]), es[1..]))
  }

  function Run(s: State, es: seq<Event>): State
    requires Possible(s, es)
    decreases es
  {
    if es == [] then s else Run(Next(s, es[0]), es[1..])
  }

  /** The module's variables and their browser; `server` is the service it talks to. */
  class AuthModule {
    var server: T.State
    var cookie: Option<T.Jti>
    var accessToken: Option<T.Jti>
    var expiresAt: int
    var inFlight: Option<Flight>
    var flights: map<Flight, Stage>
    var nextFlight: Flight
    var joined: map<Caller, Flight>
    var results: map<Caller, Option<T.Jti>>
    var settled: map<Flight, Option<T.Jti>>
    ghost var presentedRotated: bool

    ghost function View(): State
      reads this
    {
      State(server, cookie, accessToken, expiresAt, inFlight, flights, nextFlight, joined, results, settled,
            presentedRotated)
    }

    constructor (server: T.State, cookie: Option<T.Jti>)
      ensures View() == Boot(server, cookie)
    {
      this.server, this.cookie := server, cookie;
      accessToken, expiresAt, inFlight, nextFlight := None, 0, None, 0;
      flights, joined, results, settled := map[], map[], map[], map[];
      presentedRotated := false;
    }

    method SetSession(token: T.Jti, expiresIn: nat, now: int)
      modifies this`accessToken, this`expiresAt
      ensures accessToken == Some(token) && expiresAt == now + expiresIn * 1000
    {
      accessToken := Some(token);
      expiresAt := now + expiresIn * 1000;
    }

    method ClearSession()
      modifies this`accessToken, this`expiresAt
      ensures accessToken == None && expiresAt == 0
    {
      accessToken := None;
      expiresAt := 0;
    }

    method RefreshTokens(c: Caller)
      modifies this
      ensures View() == RefreshCall(old(View()), c)
    {
      if inFlight.Some? {
        joined := joined[c := inFlight.value];
        return;
      }
      var f := nextFlight;
      nextFlight := nextFlight + 1;
      presentedRotated := presentedRotated || (cookie.Some? && cookie.value in server.exchanged);
      flights := flights[f := Sent(cookie)];
      inFlight := Some(f);
      joined := joined[c := f];
    }

    method AccessTokenFor(c: Caller, now: int)
      requires Enabled(View(), GetAccessToken(c, now))
      modifies this
      ensures View() == Next(old(View()), GetAccessToken(c, now))
    {
      if accessToken.Some? && now < expiresAt - REFRESH_SKEW_MS {
        results := results[c := accessToken];
      } else {
        RefreshTokens(c);
      }
    }

    /** The response arrives: the browser keeps its cookie, then `then` or `catch` runs. */
    method OnResponse(f: Flight, now: int)
      requires Enabled(View(), Deliver(f, now))
      modifies this
      ensures View() == Next(old(View()), Deliver(f, now))
    {
      match flights[f].reply {
        case Tokens(access, refresh) =>
          cookie := Some(refresh);
          SetSession(access, server.accessTtl, now);
          flights := flights[f := Settling(Some(access))];
        case Refused =>
          ClearSession();
          flights := flights[f := Settling(None)];
      }
    }
  }

  // -------------------------------------------------------------------- laws

  /** A refresh token the server would still take, but for its expiry. */
  predicate Unrotated(server: T.State, token: T.Jti) {
    && token in server.issued && server.issued[token].kind == T.REFRESH
    && token !in server.exchanged && token !in server.store
  }

  ghost predicate Promises(s: State) {
    && (forall f | f in s.flights :: s.inFlight == Some(f))
    && (forall f | f in s.flights :: f < s.nextFlight && f !in s.settled)
    && (forall f | f in s.settled :: f < s.nextFlight)
    && (s.inFlight.Some? ==> s.inFlight.value in s.flights)
    && (forall c | c in s.joined ::
          if c in s.results then s.joined[c] in s.settled && s.results[c] == s.settled[s.joined[c]]
          else s.joined[c] in s.flights)
  }

  ghost predicate CookieIsGood(s: State) {
    match s.inFlight
    case None => s.cookie.Some? ==> Unrotated(s.server, s.cookie.value)
    case Some(f) =>
      f in s.flights &&
      match s.flights[f]
      case Sent(cookie) => cookie == s.cookie && (cookie.Some? ==> Unrotated(s.server, cookie.value))
      case Answered(Tokens(_, refresh)) => Unrotated(s.server, refresh)
      case _ => s.cookie.Some? ==> Unrotated(s.server, s.cookie.value)
  }

  ghost predicate Inv(s: State) {
    T.Inv(s.server) && Promises(s) && CookieIsGood(s) && !s.presentedRotated
  }

  lemma PromisesSame(s: State, s': State)
    requires Promises(s) && s'.inFlight == s.inFlight && s'.flights.Keys == s.flights.Keys
    requires s'.nextFlight == s.nextFlight && s'.settled == s.settled && s'.joined == s.joined
    requires s.results.Keys <= s'.results.Keys && s'.results.Keys - s.results.Keys !! s.joined.Keys
    requires forall c | c in s.results :: s'.results[c] == s.results[c]
    ensures Promises(s')
  {
    assert forall f :: f in s'.flights <==> f in s'.flights.Keys;
    forall c | c in s'.joined
      ensures if c in s'.results then s'.joined[c] in s'.settled && s'.results[c] == s'.settled[s'.joined[c]]
              else s'.joined[c] in s'.flights
    {
      assert c in s'.results.Keys ==> c in s.results.Keys;
    }
  }

  lemma RefreshCallInv(s: State, c: Caller)
    requires Inv(s) && c !in s.joined && c !in s.results
    ensures Inv(RefreshCall(s, c))
  {
  }

  lemma FinallyPromises(s: State, f: Flight)
    requires Promises(s) && f in s.flights && s.flights[f].Settling?
    ensures Promises(FinallyStep(s, f))
  {
  }

  lemma ServeInv(s: State, f: Flight, active: bool, access: T.Jti, refresh: T.Jti)
    requires Inv(s) && Enabled(s, Serve(f, active, access, refresh))
    ensures Inv(ServeStep(s, f, active, access, refresh))
  {
    var s' := ServeStep(s, f, active, access, refresh);
    PromisesSame(s, s');
    var cookie := s.flights[f].cookie;
    if cookie.Some? && T.Exchanges(s.server, cookie.value, active) {
      T.StepInv(s.server, T.Refresh(cookie.value, active, access, refresh));
    }
  }

  /** A token that nobody shows to the server stays good. */
  lemma StaysUnrotated(server: T.State, step: T.Event, token: T.Jti)
    requires T.Enabled(server, step) && Unrotated(server, token)
    requires step.Refresh? ==> step.token != token
    requires step.Logout? ==> step.refreshToken != Some(token)
    ensures Unrotated(T.Next(server, step), token)
  {
  }

  lemma ElsewhereInv(s: State, step: T.Event)
    requires Inv(s) && Enabled(s, Elsewhere(step))
    ensures Inv(Next(s, Elsewhere(step)))
  {
    T.StepInv(s.server, step);
    PromisesSame(s, Next(s, Elsewhere(step)));
    forall token | Ours(s, token) && Unrotated(s.server, token) ensures Unrotated(T.Next(s.server, step), token) {
      StaysUnrotated(s.server, step, token);
    }
  }

  lemma StepInv(s: State, e: Event)
    requires Inv(s) && Enabled(s, e)
    ensures Inv(Next(s, e))
  {
    match e
    case GetAccessToken(c, now) =>
      if TokenIsFresh(s, now) {
        PromisesSame(s, Next(s, e));
      } else {
        RefreshCallInv(s, c);
      }
    case ForceRefresh(c) => RefreshCallInv(s, c);
    case Serve(f, active, a, r) => ServeInv(s, f, active, a, r);
    case Unreachable(f) => PromisesSame(s, Next(s, e));
    case Deliver(f, now) => PromisesSame(s, Next(s, e));
    case Finally(f) => FinallyPromises(s, f);
    case Elsewhere(step) => ElsewhereInv(s, step);
  }

  lemma {:induction false} RunInv(s: State, es: seq<Event>)
    requires Inv(s) && Possible(s, es)
    ensures Inv(Run(s, es))
    decreases es
  {
    if es == [] {
    } else {
      StepInv(s, es[0]);
      RunInv(Next(s, es[0]), es[1..]);
    }
  }

  /** A session to start from: any reachable server, and a cookie that, if there is one,
      holds a refresh token which was neither rotated nor revoked. */
  ghost predicate Session(server: T.State, cookie: Option<T.Jti>) {
    T.Inv(server) && (cookie.Some? ==> Unrotated(server, cookie.value))
  }

  /** A login gives such a session, whatever the server went through before. */
  lemma LoginStartsSession(blocklist: T.Blocklist, accessTtl: nat, refreshTtl: nat, es: seq<T.Event>,
                           access: T.Jti, refresh: T.Jti)
    requires T.Possible(T.Boot(blocklist, accessTtl, refreshTtl), es)
    requires T.Enabled(T.Run(T.Boot(blocklist, accessTtl, refreshTtl), es), T.Login(access, refresh))
    ensures var server := T.Run(T.Boot(blocklist, accessTtl, refreshTtl), es);
      Session(T.Next(server, T.Login(access, refresh)), Some(refresh))
  {
    T.RunInv(T.Boot(blocklist, accessTtl, refreshTtl), es);
    T.StepInv(T.Run(T.Boot(blocklist, accessTtl, refreshTtl), es), T.Login(access, refresh));
  }

  /** In every interleaving at most one request is outstanding, every caller that
      awaited the same promise is given the same result, and no request ever
      carries a token that was already rotated. */
  lemma SingleFlight(server: T.State, cookie: Option<T.Jti>, es: seq<Event>)
    requires Session(server, cookie) && Possible(Boot(server, cookie), es)
    ensures var s := Run(Boot(server, cookie), es);
      && (forall f, g | f in s.flights && g in s.flights :: f == g)
      && (forall a, b | a in s.joined && b in s.joined && s.joined[a] == s.joined[b] ::
            (a in s.results <==> b in s.results) && (a in s.results ==> s.results[a] == s.results[b]))
      && !s.presentedRotated
  {
    RunInv(Boot(server, cookie), es);
  }

  /** A request is refused only for an expired or missing cookie or an inactive user,
      never because rotation outran it. */
  lemma RefusedOnlyWhenExpired(server: T.State, cookie: Option<T.Jti>, es: seq<Event>,
                               f: Flight, active: bool, access: T.Jti, refresh: T.Jti)
    requires Session(server, cookie) && Possible(Boot(server, cookie), es)
    requires Enabled(Run(Boot(server, cookie), es), Serve(f, active, access, refresh))
    ensures var s := Run(Boot(server, cookie), es);
      var sent := s.flights[f].cookie;
      Next(s, Serve(f, active, access, refresh)).flights[f] == Answered(Tokens(access, refresh))
      <==> active && sent.Some? && sent.value in s.server.issued
           && s.server.clock < s.server.issued[sent.value].exp as real
  {
    RunInv(Boot(server, cookie), es);
  }
}
