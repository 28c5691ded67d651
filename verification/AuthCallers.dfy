/** What the callers of the browser's refresh are given, and when they are given it at once. */
module AuthCallers {
  import opened Common
  import opened AuthClient
  import T = Tokens

  /** An access token and when it arrived. */
  datatype Arrival = Arrival(token: T.Jti, at: int)

  /** The token of the last answer that arrived, unless that was a refusal. */
  function Latest(s: State, es: seq<Event>, latest: Option<Arrival>): Option<Arrival>
    requires Possible(s, es)
    decreases es
  {
    if es == [] then latest else Latest(Next(s, es[0]), es[1..], LatestAfter(s, es[0], latest))
  }

  function LatestAfter(s: State, e: Event, latest: Option<Arrival>): Option<Arrival>
    requires Enabled(s, e)
  {
    if !e.Deliver? then latest
    else
      match s.flights[e.flight].reply
      case Tokens(access, _) => Some(Arrival(access, e.now))
      case Refused => None
  }

  /** The session that the last answer leaves: its token, and its end by the client's clock. */
  predicate Keeps(s: State, latest: Option<Arrival>) {
    match latest
    case None => s.accessToken == None
    case Some(arrival) =>
      s.accessToken == Some(arrival.token) && s.expiresAt == arrival.at + 1000 * s.server.accessTtl
  }

  lemma KeepsStep(s: State, e: Event, latest: Option<Arrival>)
    requires Enabled(s, e) && Keeps(s, latest)
    ensures Keeps(Next(s, e), LatestAfter(s, e, latest)) && Next(s, e).server.accessTtl == s.server.accessTtl
  {
  }

  lemma {:induction false} KeepsLatest(s: State, es: seq<Event>, latest: Option<Arrival>)
    requires Possible(s, es) && Keeps(s, latest)
    ensures Keeps(Run(s, es), Latest(s, es, latest)) && Run(s, es).server.accessTtl == s.server.accessTtl
    decreases es
  {
    if es == [] {
    } else {
      KeepsStep(s, es[0], latest);
      KeepsLatest(Next(s, es[0]), es[1..], LatestAfter(s, es[0], latest));
    }
  }

  /** Over every run: a caller is given a token at once, without a request, exactly when the
      last answer that arrived brought one and its lifetime, less thirty seconds, is not
      over; it is that token. Any other caller joins a promise. */
  lemma AnsweredAtOnceIff(server: T.State, cookie: Option<T.Jti>, es: seq<Event>, c: Caller, now: int)
    requires Possible(Boot(server, cookie), es)
    requires Enabled(Run(Boot(server, cookie), es), GetAccessToken(c, now))
    ensures var s := Run(Boot(server, cookie), es);
      var s' := Next(s, GetAccessToken(c, now));
      var latest := Latest(Boot(server, cookie), es, None);
      if latest.Some? && now < latest.value.at + 1000 * server.accessTtl - 30000
      then s' == s.(results := s.results[c := Some(latest.value.token)])
      else c in s'.joined && s'.results == s.results && s'.accessToken == s.accessToken
  {
    KeepsLatest(Boot(server, cookie), es, None);
  }

  /** A caller who joins shares the request that is out, or sends one with the cookie. */
  lemma JoinsOrSends(s: State, c: Caller)
    requires Inv(s) && Enabled(s, ForceRefresh(c))
    ensures var s' := Next(s, ForceRefresh(c));
      && c in s'.joined && s'.joined[c] in s'.flights && s'.joined == s.joined[c := s'.joined[c]]
      && (s.flights != map[] ==> s'.flights == s.flights)
      && (s.flights == map[] ==> s'.flights == map[s'.joined[c] := Sent(s.cookie)] && s'.joined[c] !in s.settled)
      && s'.results == s.results && s'.cookie == s.cookie
  {
    assert s.flights == map[] <==> s.inFlight.None?;
  }

  /** When the answer has arrived and its promise is settled, all who joined it have been given
      its access token, and the browser holds its refresh token; after a refusal they
      have been given nothing and there is no session. Nothing is in flight then. */
  lemma AllAreAnswered(s: State, f: Flight, now: int)
    requires Inv(s) && Enabled(s, Deliver(f, now))
    ensures Enabled(Next(s, Deliver(f, now)), Finally(f))
    ensures var s' := Next(Next(s, Deliver(f, now)), Finally(f));
      && s'.flights == map[] && s'.inFlight == None
      && (forall c | c in s.results :: c in s'.results && s'.results[c] == s.results[c])
      && match s.flights[f].reply
         case Tokens(access, refresh) =>
           && s'.cookie == Some(refresh) && s'.accessToken == Some(access)
           && (forall c | c in s.joined && s.joined[c] == f :: c in s'.results && s'.results[c] == Some(access))
         case Refused =>
           && s'.cookie == s.cookie && s'.accessToken == None
           && (forall c | c in s.joined && s.joined[c] == f :: c in s'.results && s'.results[c] == None)
  {
    StepInv(s, Deliver(f, now));
    StepInv(Next(s, Deliver(f, now)), Finally(f));
    assert forall c | c in s.results && c in s.joined :: s.joined[c] != f;
  }

  /** A request that never arrives is answered like a refusal. */
  lemma NoneIsReached(s: State, f: Flight, now: int)
    requires Inv(s) && Enabled(s, Unreachable(f))
    ensures Enabled(Next(s, Unreachable(f)), Deliver(f, now))
    ensures Enabled(Next(Next(s, Unreachable(f)), Deliver(f, now)), Finally(f))
    ensures var s' := Next(Next(Next(s, Unreachable(f)), Deliver(f, now)), Finally(f));
      && s'.accessToken == None && s'.flights == map[] && s'.cookie == s.cookie
      && (forall c | c in s.joined && s.joined[c] == f :: c in s'.results && s'.results[c] == None)
  {
    StepInv(s, Unreachable(f));
    AllAreAnswered(Next(s, Unreachable(f)), f, now);
  }
}
