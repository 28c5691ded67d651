/**
 Refresh-token rotation: the blocklist's lifetimes against the tokens' expiry.

 A call of the service is one step at one reading of the clock. Token texts stand
 for what a verified signature says: the id, the type and the expiry.
 */
module Tokens {
  import opened Common

  type Jti = nat

  datatype TokenType = ACCESS | REFRESH

  datatype Token = Token(kind: TokenType, exp: int)

  /** The two blocklists differ in who drops an entry, and in its last instant. */
  datatype Blocklist = InMemory | Redis

  datatype State = State(
    blocklist: Blocklist,
    accessTtl: nat,
    refreshTtl: nat,
    clock: real,
    store: map<Jti, real>,    // revoked ids, with the end of their entry
    issued: map<Jti, Token>,
    exchanged: seq<Jti>,      // the refresh tokens exchanged so far
    presented: set<Jti>)      // the issued tokens that a logout presented

  function Boot(blocklist: Blocklist, accessTtl: nat, refreshTtl: nat): State {
    State(blocklist, accessTtl, refreshTtl, 0.0, map[], map[], [], {})
  }

  /** `decode`: a token is accepted strictly before its expiry (section 4.1.4 of RFC
      7519) and only for its own type. */
  predicate Decodes(s: State, jti: Jti, kind: TokenType, now: real) {
    jti in s.issued && s.issued[jti].kind == kind && now < s.issued[jti].exp as real
  }

  predicate Blocked(s: State, jti: Jti, now: real) {
    jti in s.store && if s.blocklist == InMemory then now <= s.store[jti] else now < s.store[jti]
  }

  /** The entry lives for the token's remaining whole seconds, at least one. */
  function EntryEnd(exp: int, now: real): real {
    now + Max(exp - now.Floor, 1) as real
  }

  datatype Event =
    | Tick(clock: real)
    | Login(access: Jti, refresh: Jti)
    | Refresh(token: Jti, active: bool, access: Jti, refresh: Jti)
    | Logout(session: Jti, refreshToken: Option<Jti>)
    | Forget(jti: Jti)   // an entry past its end is dropped

  predicate Enabled(s: State, e: Event) {
    match e
    case Tick(t) => t >= s.clock
    case Login(a, r) => NewPair(s, a, r)
    case Refresh(_, _, a, r) => NewPair(s, a, r)
    case Logout(session, _) => session in s.issued && s.issued[session].kind == ACCESS
    case Forget(jti) => jti in s.store && !Blocked(s, jti, s.clock)
  }

  predicate NewPair(s: State, access: Jti, refresh: Jti) {
    access !in s.issued && refresh !in s.issued && access != refresh
  }

  function Issue(s: State, access: Jti, refresh: Jti): State {
    var now := s.clock.Floor;
    s.(issued := s.issued[access := Token(ACCESS, now + s.accessTtl)][refresh := Token(REFRESH, now + s.refreshTtl)])
  }

  /** Whether a refresh call is answered with a new pair. */
  predicate Exchanges(s: State, token: Jti, active: bool) {
    Decodes(s, token, REFRESH, s.clock) && !Blocked(s, token, s.clock) && active
  }

  function RefreshStep(s: State, token: Jti, active: bool, access: Jti, refresh: Jti): State {
    if !Exchanges(s, token, active) then s
    else
      var store := s.store[token := EntryEnd(s.issued[token].exp, s.clock)];
      Issue(s.(store := store, exchanged := s.exchanged + [token]), access, refresh)
  }

  function LogoutStep(s: State, session: Jti, refreshToken: Option<Jti>): State
    requires session in s.issued
  {
    var s1 := s.(store := s.store[session := EntryEnd(s.issued[session].exp, s.clock)]);
    if refreshToken.None? then s1
    else
      var token := refreshToken.value;
      var s2 := if token in s.issued then s1.(presented := s1.presented + {token}) else s1;
      if Decodes(s, token, REFRESH, s.clock)
      then s2.(store := s2.store[token := EntryEnd(s.issued[token].exp, s.clock)]) else s2
  }

  function Next(s: State, e: Event): State
    requires Enabled(s, e)
  {
    match e
    case Tick(t) => s.(clock := t)
    case Login(a, r) => Issue(s, a, r)
    case Refresh(token, active, a, r) => RefreshStep(s, token, active, a, r)
    case Logout(session, token) => LogoutStep(s, session, token)
    case Forget(jti) => s.(store := s.store - {jti})
  }

  predicate Possible(s: State, es: seq<Event>)
    decreases es
  {
    es == [] || (Enabled(s, es[0]) && Possible(Next(s, es[0]), es[1..]))
  }

  function Run(s: State, es: seq<Event>): State
    requires Possible(s, es)
    decreases es
  {
    if es == [] then s else Run(Next(s, es[0]), es[1..])
  }

  datatype Outcome = Issued(access: Jti, refresh: Jti) | AuthenticationError

  /** The in-process blocklist. */
  class InMemoryTokenBlocklist {
    var store: map<Jti, real>

    constructor ()
      ensures store == map[]
    {
      store := map[];
    }

    method Block(jti: Jti, ttlSeconds: int, now: real)
      modifies this
      ensures store == old(store)[jti := now + ttlSeconds as real]
    {
      store := store[jti := now + ttlSeconds as real];
    }

    /** Reading an entry past its end also drops it. */
    method IsBlocked(jti: Jti, now: real) returns (blocked: bool)
      modifies this
      ensures blocked <==> jti in old(store) && now <= old(store)[jti]
      ensures store == if jti in old(store) && !blocked then old(store) - {jti} else old(store)
    {
      if jti !in store {
        return false;
      }
      if store[jti] < now {
        store := store - {jti};
        return false;
      }
      blocked := true;
    }
  }

  /** The calls of the authentication service on that blocklist. */
  class AuthService {
    const blocklist: InMemoryTokenBlocklist
    const accessTtl: nat
    const refreshTtl: nat
    var clock: real
    var issued: map<Jti, Token>
    ghost var exchanged: seq<Jti>
    ghost var presented: set<Jti>

    ghost function View(): State
      reads this, blocklist
    {
      State(InMemory, accessTtl, refreshTtl, clock, blocklist.store, issued, exchanged, presented)
    }

    constructor (accessTtl: nat, refreshTtl: nat)
      ensures View() == Boot(InMemory, accessTtl, refreshTtl)
      ensures fresh(blocklist)
    {
      blocklist := new InMemoryTokenBlocklist();
      this.accessTtl, this.refreshTtl := accessTtl, refreshTtl;
      clock, issued, exchanged, presented := 0.0, map[], [], {};
    }

    method IssueTokens(access: Jti, refresh: Jti)
      modifies this`issued
      ensures View() == Issue(old(View()), access, refresh)
      ensures issued == old(issued)[access := Token(ACCESS, clock.Floor + accessTtl)]
                                   [refresh := Token(REFRESH, clock.Floor + refreshTtl)]
    {
      var now := clock.Floor;
      issued := issued[access := Token(ACCESS, now + accessTtl)];
      issued := issued[refresh := Token(REFRESH, now + refreshTtl)];
    }

    /** The step of the call, after the reads of the blocklist dropped what had ended. */
    method RefreshTokens(token: Jti, active: bool, access: Jti, refresh: Jti) returns (outcome: Outcome)
      requires NewPair(View(), access, refresh)
      modifies this`issued, this`exchanged, blocklist
      ensures View() == RefreshStep(old(View()), token, active, access, refresh)
        || (token in old(View()).store && Enabled(old(View()), Forget(token))
            && View() == RefreshStep(Next(old(View()), Forget(token)), token, active, access, refresh))
      ensures outcome == if Exchanges(old(View()), token, active) then Issued(access, refresh) else AuthenticationError
    {
      if token !in issued || issued[token].kind != REFRESH || clock >= issued[token].exp as real {
        return AuthenticationError;
      }
      var blocked := blocklist.IsBlocked(token, clock);
      if blocked || !active {
        return AuthenticationError;
      }
      var remaining := Max(issued[token].exp - clock.Floor, 1);
      blocklist.Block(token, remaining, clock);
      exchanged := exchanged + [token];
      IssueTokens(access, refresh);
      outcome := Issued(access, refresh);
    }

    method LogOut(session: Jti, refreshToken: Option<Jti>)
      requires Enabled(View(), Logout(session, refreshToken))
      modifies this`presented, blocklist
      ensures View() == LogoutStep(old(View()), session, refreshToken)
    {
      var now := clock.Floor;
      blocklist.Block(session, Max(issued[session].exp - now, 1), clock);
      if refreshToken.Some? {
        var token := refreshToken.value;
        presented := if token in issued then presented + {token} else presented;
        if token in issued && issued[token].kind == REFRESH && clock < issued[token].exp as real {
          blocklist.Block(token, Max(issued[token].exp - now, 1), clock);
        }
      }
    }
  }

  // -------------------------------------------------------------------- laws

  predicate Spent(s: State, jti: Jti) {
    jti in s.exchanged || jti in s.presented
  }

  /** A spent refresh token has expired, or its entry lasts until it expires. */
  ghost predicate Inv(s: State) {
    && (forall j | j in s.exchanged :: j in s.issued && s.issued[j].kind == REFRESH)
    && (forall j | j in s.presented :: j in s.issued)
    && (forall j | j in s.store :: j in s.issued)
    && (forall j | j in s.issued && s.issued[j].kind == REFRESH && Spent(s, j) ::
          s.clock >= s.issued[j].exp as real || (j in s.store && s.store[j] >= s.issued[j].exp as real))
  }

  /** The entry outlives the token, although its length is cut to whole seconds. */
  lemma EntryOutlivesToken(exp: int, now: real)
    ensures EntryEnd(exp, now) >= exp as real
  {
    assert now >= now.Floor as real;
  }

  lemma StepInv(s: State, e: Event)
    requires Inv(s) && Enabled(s, e)
    ensures Inv(Next(s, e))
  {
    match e
    case Refresh(token, active, a, r) => RefreshInv(s, token, active, a, r);
    case Logout(session, token) => LogoutInv(s, session, token);
    case _ =>
  }

  lemma RefreshInv(s: State, token: Jti, active: bool, access: Jti, refresh: Jti)
    requires Inv(s) && NewPair(s, access, refresh)
    ensures Inv(RefreshStep(s, token, active, access, refresh))
  {
    if token in s.issued {
      EntryOutlivesToken(s.issued[token].exp, s.clock);
    }
  }

  lemma LogoutInv(s: State, session: Jti, refreshToken: Option<Jti>)
    requires Inv(s) && session in s.issued && s.issued[session].kind == ACCESS
    ensures Inv(LogoutStep(s, session, refreshToken))
  {
    if refreshToken.Some? && refreshToken.value in s.issued {
      EntryOutlivesToken(s.issued[refreshToken.value].exp, s.clock);
    }
  }

  lemma {:induction false} RunInv(s: State, es: seq<Event>)
    requires Inv(s) && Possible(s, es)
    ensures Inv(Run(s, es))
    decreases es
  {
    if es == [] {
    } else {
      StepInv(s, es[0]);
      RunInv(Next(s, es[0]), es[1..]);
    }
  }

  lemma SpentStep(s: State, e: Event, jti: Jti)
    requires Inv(s) && Enabled(s, e) && Spent(s, jti)
    ensures Spent(Next(s, e), jti)
    ensures Next(s, e).exchanged == s.exchanged
      || (e.Refresh? && e.token != jti && Next(s, e).exchanged == s.exchanged + [e.token])
  {
  }

  /** A spent token is refused by every later call, whichever blocklist is used. */
  lemma {:induction false} SpentStaysSpent(s: State, es: seq<Event>, jti: Jti)
    requires Inv(s) && Possible(s, es) && Spent(s, jti)
    ensures s.exchanged <= Run(s, es).exchanged
    ensures jti !in Run(s, es).exchanged[|s.exchanged|..]
    decreases es
  {
    if es == [] {
    } else {
      var s' := Next(s, es[0]);
      StepInv(s, es[0]);
      SpentStep(s, es[0], jti);
      SpentStaysSpent(s', es[1..], jti);
      var all := Run(s', es[1..]).exchanged;
      if s'.exchanged != s.exchanged {
        assert all[|s.exchanged|..] == [s'.exchanged[|s.exchanged|]] + all[|s'.exchanged|..];
      }
    }
  }

  predicate Distinct(js: seq<Jti>) {
    forall i, k | 0 <= i < k < |js| :: js[i] != js[k]
  }

  lemma {:induction false} RunDistinct(s: State, es: seq<Event>)
    requires Inv(s) && Possible(s, es) && Distinct(s.exchanged)
    ensures Distinct(Run(s, es).exchanged)
    decreases es
  {
    if es == [] {
    } else {
      StepInv(s, es[0]);
      if es[0].Refresh? && Exchanges(s, es[0].token, es[0].active) {
        assert es[0].token !in s.exchanged;
      }
      RunDistinct(Next(s, es[0]), es[1..]);
    }
  }

  /** In every run no refresh token is exchanged twice. */
  lemma SingleUse(blocklist: Blocklist, accessTtl: nat, refreshTtl: nat, es: seq<Event>)
    requires Possible(Boot(blocklist, accessTtl, refreshTtl), es)
    ensures Distinct(Run(Boot(blocklist, accessTtl, refreshTtl), es).exchanged)
  {
    RunDistinct(Boot(blocklist, accessTtl, refreshTtl), es);
  }

  /** And none is exchanged after a logout that presented it. */
  lemma NoneAfterLogout(blocklist: Blocklist, accessTtl: nat, refreshTtl: nat,
                        before: seq<Event>, after: seq<Event>, jti: Jti)
    requires Possible(Boot(blocklist, accessTtl, refreshTtl), before)
    requires var s := Run(Boot(blocklist, accessTtl, refreshTtl), before);
      jti in s.presented && Possible(s, after)
    ensures var s := Run(Boot(blocklist, accessTtl, refreshTtl), before);
      && s.exchanged <= Run(s, after).exchanged
      && jti !in Run(s, after).exchanged[|s.exchanged|..]
  {
    RunInv(Boot(blocklist, accessTtl, refreshTtl), before);
    SpentStaysSpent(Run(Boot(blocklist, accessTtl, refreshTtl), before), after, jti);
  }

  /** So the refresh token handed to a logout is exchanged by no later call. */
  lemma LogoutEndsRefresh(blocklist: Blocklist, accessTtl: nat, refreshTtl: nat,
                          before: seq<Event>, session: Jti, jti: Jti, after: seq<Event>)
    requires Possible(Boot(blocklist, accessTtl, refreshTtl), before)
    requires var s := Run(Boot(blocklist, accessTtl, refreshTtl), before);
      && jti in s.issued && Enabled(s, Logout(session, Some(jti)))
      && Possible(Next(s, Logout(session, Some(jti))), after)
    ensures var s := Run(Boot(blocklist, accessTtl, refreshTtl), before);
      var s' := Run(Next(s, Logout(session, Some(jti))), after);
      s.exchanged <= s'.exchanged && jti !in s'.exchanged[|s.exchanged|..]
  {
    RunInv(Boot(blocklist, accessTtl, refreshTtl), before);
    var s := Run(Boot(blocklist, accessTtl, refreshTtl), before);
    StepInv(s, Logout(session, Some(jti)));
    SpentStaysSpent(Next(s, Logout(session, Some(jti))), after, jti);
  }

  // --------------------------------------------------------------- lifetimes

  /** The events that are answered with a new pair. */
  predicate Issues(s: State, e: Event) {
    e.Login? || (e.Refresh? && Exchanges(s, e.token, e.active))
  }

  /** An access token is accepted for the access lifetime from the whole second in which it was
      issued, a refresh token for the refresh lifetime, and neither as the other. */
  lemma IssuedUntil(s: State, e: Event, now: real)
    requires Enabled(s, e) && Issues(s, e)
    ensures var s' := Next(s, e);
      && (Decodes(s', e.access, ACCESS, now) <==> now < (s.clock.Floor + s.accessTtl) as real)
      && (Decodes(s', e.refresh, REFRESH, now) <==> now < (s.clock.Floor + s.refreshTtl) as real)
      && !Decodes(s', e.access, REFRESH, now) && !Decodes(s', e.refresh, ACCESS, now)
  {
  }

  /** The clock is where the last tick put it. */
  function LastTick(es: seq<Event>, clock: real): real {
    if es == [] then clock else LastTick(es[1..], if es[0].Tick? then es[0].clock else clock)
  }

  lemma {:induction false} ClockIsLastTick(s: State, es: seq<Event>)
    requires Possible(s, es)
    ensures Run(s, es).clock == LastTick(es, s.clock)
    decreases es
  {
    if es == [] {
    } else {
      ClockIsLastTick(Next(s, es[0]), es[1..]);
    }
  }

  /** A token keeps what was signed. */
  lemma {:induction false} SignedForGood(s: State, es: seq<Event>, jti: Jti)
    requires Possible(s, es) && jti in s.issued
    ensures jti in Run(s, es).issued && Run(s, es).issued[jti] == s.issued[jti]
    decreases es
  {
    if es == [] {
    } else {
      SignedForGood(Next(s, es[0]), es[1..], jti);
    }
  }

  /** Only the refresh tokens that were spent have an entry. */
  ghost predicate OnlySpentStored(s: State) {
    forall j | j in s.store && j in s.issued && s.issued[j].kind == REFRESH :: Spent(s, j)
  }

  lemma {:induction false} RunOnlySpent(s: State, es: seq<Event>)
    requires Inv(s) && OnlySpentStored(s) && Possible(s, es)
    ensures OnlySpentStored(Run(s, es))
    decreases es
  {
    if es == [] {
    } else {
      StepInv(s, es[0]);
      RunOnlySpent(Next(s, es[0]), es[1..]);
    }
  }

  /** When a refresh token is exchanged, in any reachable state: until it expires, unless it
      was exchanged or presented to a logout before. */
  lemma ExchangesIff(s: State, jti: Jti, active: bool)
    requires Inv(s) && OnlySpentStored(s) && jti in s.issued && s.issued[jti].kind == REFRESH
    ensures Exchanges(s, jti, active) <==>
      active && s.clock < s.issued[jti].exp as real && jti !in s.exchanged && jti !in s.presented
  {
  }

  /** Over every run: the refresh token of a login or an exchange is itself exchanged for an
      active user at every time before its lifetime ends and at none from then on, as
      long as nobody has exchanged it or presented it to a logout. */
  lemma RefreshUntilSpent(blocklist: Blocklist, accessTtl: nat, refreshTtl: nat, before: seq<Event>, e: Event,
                          after: seq<Event>, active: bool, access: Jti, refresh: Jti)
    requires Possible(Boot(blocklist, accessTtl, refreshTtl), before)
    requires var s := Run(Boot(blocklist, accessTtl, refreshTtl), before);
      && Enabled(s, e) && Issues(s, e) && Possible(Next(s, e), after)
      && NewPair(Run(Next(s, e), after), access, refresh)
    ensures var s := Run(Boot(blocklist, accessTtl, refreshTtl), before);
      var s' := Run(Next(s, e), after);
      var s'' := Next(s', Refresh(e.refresh, active, access, refresh));
      if active && s'.clock < (s.clock.Floor + refreshTtl) as real
         && e.refresh !in s'.exchanged && e.refresh !in s'.presented
      then s''.exchanged == s'.exchanged + [e.refresh] && access in s''.issued && refresh in s''.issued
      else s'' == s'
  {
    var boot := Boot(blocklist, accessTtl, refreshTtl);
    RunInv(boot, before);
    RunOnlySpent(boot, before);
    LifetimesStay(boot, before);
    var s := Run(boot, before);
    IssuedUntil(s, e, s.clock);
    StepInv(s, e);
    RunInv(Next(s, e), after);
    RunOnlySpent(s, [e]);
    assert Run(s, [e]) == Next(s, e);
    RunOnlySpent(Next(s, e), after);
    SignedForGood(Next(s, e), after, e.refresh);
    ExchangesIff(Run(Next(s, e), after), e.refresh, active);
  }

  lemma {:induction false} LifetimesStay(s: State, es: seq<Event>)
    requires Possible(s, es)
    ensures Run(s, es).accessTtl == s.accessTtl && Run(s, es).refreshTtl == s.refreshTtl
    ensures Run(s, es).blocklist == s.blocklist
    decreases es
  {
    if es == [] {
    } else {
      LifetimesStay(Next(s, es[0]), es[1..]);
    }
  }

  // ---------------------------------------------------------------- sessions

  /** Whether a request with this access token passes: it decodes and is not revoked. */
  predicate Accepted(s: State, jti: Jti) {
    Decodes(s, jti, ACCESS, s.clock) && !Blocked(s, jti, s.clock)
  }

  ghost predicate LoggedOut(es: seq<Event>, session: Jti) {
    exists token: Option<Jti> :: Logout(session, token) in es
  }

  /** The token has expired or its entry lasts until it does. */
  predicate Over(s: State, jti: Jti)
    requires jti in s.issued
  {
    s.clock >= s.issued[jti].exp as real || (jti in s.store && s.store[jti] >= s.issued[jti].exp as real)
  }

  lemma OverStep(s: State, e: Event, jti: Jti)
    requires Enabled(s, e) && jti in s.issued && s.issued[jti].kind == ACCESS
    ensures jti in Next(s, e).issued && Next(s, e).issued[jti] == s.issued[jti]
    ensures Over(s, jti) || (e.Logout? && e.session == jti) ==> Over(Next(s, e), jti)
    ensures jti !in s.store && !(e.Logout? && e.session == jti) ==> jti !in Next(s, e).store
  {
    EntryOutlivesToken(s.issued[jti].exp, s.clock);
  }

  lemma {:induction false} OverRun(s: State, es: seq<Event>, jti: Jti)
    requires Possible(s, es) && jti in s.issued && s.issued[jti].kind == ACCESS
    ensures jti in Run(s, es).issued && Run(s, es).issued[jti] == s.issued[jti]
    ensures Over(s, jti) || LoggedOut(es, jti) ==> Over(Run(s, es), jti)
    ensures jti !in s.store && !LoggedOut(es, jti) ==> jti !in Run(s, es).store
    decreases es
  {
    if es == [] {
    } else {
      OverStep(s, es[0], jti);
      OverRun(Next(s, es[0]), es[1..], jti);
      assert es == [es[0]] + es[1..];
      if es[0].Logout? && es[0].session == jti {
        assert Logout(jti, es[0].refreshToken) in es;
      }
      if LoggedOut(es[1..], jti) {
        var token :| Logout(jti, token) in es[1..];
        assert Logout(jti, token) in es;
      }
      if LoggedOut(es, jti) && !(es[0].Logout? && es[0].session == jti) {
        var token :| Logout(jti, token) in es;
        assert Logout(jti, token) in es[1..];
      }
    }
  }

  /** Over every run: the access token of a login or an exchange passes until its lifetime
      ends or the session is logged out, and never again. */
  lemma AccessUntilLogout(blocklist: Blocklist, accessTtl: nat, refreshTtl: nat, before: seq<Event>, e: Event,
                          after: seq<Event>)
    requires Possible(Boot(blocklist, accessTtl, refreshTtl), before)
    requires var s := Run(Boot(blocklist, accessTtl, refreshTtl), before);
      Enabled(s, e) && Issues(s, e) && Possible(Next(s, e), after)
    ensures var s := Run(Boot(blocklist, accessTtl, refreshTtl), before);
      var s' := Run(Next(s, e), after);
      Accepted(s', e.access) <==> s'.clock < (s.clock.Floor + accessTtl) as real && !LoggedOut(after, e.access)
  {
    var boot := Boot(blocklist, accessTtl, refreshTtl);
    RunInv(boot, before);
    LifetimesStay(boot, before);
    var s := Run(boot, before);
    IssuedUntil(s, e, s.clock);
    assert e.access !in Next(s, e).store;
    OverRun(Next(s, e), after, e.access);
  }

  /** A revoked id stays blocked for the whole seconds that its token had left, at least
      one, counted from the moment of the revocation; Redis drops the entry in the last
      instant. */
  lemma RevokedFor(s: State, e: Event, jti: Jti, now: real)
    requires Enabled(s, e) && jti in s.issued
    requires match e
      case Refresh(token, active, _, _) => jti == token && Exchanges(s, token, active)
      case Logout(session, token) => jti == session || (token == Some(jti) && Decodes(s, jti, REFRESH, s.clock))
      case _ => false
    ensures var left := s.issued[jti].exp - s.clock.Floor;
      var end := s.clock + (if left > 1 then left else 1) as real;
      Blocked(Next(s, e), jti, now) <==> now < end || (s.blocklist == InMemory && now == end)
  {
  }
}
