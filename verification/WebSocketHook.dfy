/**
 The reconnecting WebSocket hook: its refs, the sockets it made and the timers it set,
 under every order of mounts, cleanups, socket events, timer firings and disconnects.
 */
module WebSocketHook {
  import opened Common

  type Url = string
  type Id = nat

  datatype ReadyState = CONNECTING | OPEN | CLOSING | CLOSED

  datatype Socket = Socket(url: Url, state: ReadyState)

  datatype State = State(
    sockets: map<Id, Socket>,       // every socket ever made
    current: Option<Id>,            // wsRef
    allowed: set<Id>,               // allowedToReconnectRef
    shouldReconnect: bool,
    attempts: nat,
    timers: map<Id, Url>,           // pending timeouts, with the URL of their closure
    timerRef: Option<Id>,           // reconnectTimeoutRef
    mounted: Option<Url>,           // the effect's URL, between a mount and its cleanup
    next: Id,                       // the next unused id
    made: nat,                      // sockets made since the last mount or open
    hasOpened: bool)                // whether a socket opened since the mount

  const INITIAL := State(map[], None, {}, true, 0, map[], None, None, 0, 0, false)

  /** What the component that uses the hook does: running the effect or its cleanup, and
      calling `disconnect`. */
  datatype Act = Mount(url: Url) | Cleanup | Disconnect

  /** `onclose` reads the options when it runs. Before it decides to reconnect it calls the
      user's callbacks, and these may act on the hook at once, a new URL included. */
  datatype Event =
    | Acts(act: Act)
    | Opened(ws: Id)
    | PeerCloses(ws: Id)
    | Closed(ws: Id, enabled: bool, maxAttempts: Option<nat>, during: seq<Act>)
    | Fire(timer: Id)

  predicate Enabled(s: State, e: Event) {
    match e
    case Acts(act) => CanAct(s, act)
    case Opened(ws) => ws in s.sockets && s.sockets[ws].state == CONNECTING
    case PeerCloses(ws) => ws in s.sockets && s.sockets[ws].state == OPEN
    case Closed(ws, _, _, during) =>
      ws in s.sockets && s.sockets[ws].state != CLOSED && CanActAll(WithSocket(s, ws, CLOSED), during)
    case Fire(timer) => timer in s.timers
  }

  predicate CanAct(s: State, act: Act) {
    match act
    case Mount(_) => s.mounted.None?
    case Cleanup => s.mounted.Some?
    case Disconnect => true
  }

  function ActStep(s: State, act: Act): State
    requires CanAct(s, act)
  {
    match act
    case Mount(url) =>
      var s1 := s.(shouldReconnect := true, attempts := 0, mounted := Some(url), made := 0, hasOpened := false);
      if Blank(url) then s1 else Connect(s1, url)
    case Cleanup => StopReconnecting(s).(current := None, mounted := None)
    case Disconnect => StopReconnecting(s)
  }

  predicate CanActAll(s: State, acts: seq<Act>)
    decreases acts
  {
    acts == [] || (CanAct(s, acts[0]) && CanActAll(ActStep(s, acts[0]), acts[1..]))
  }

  function ActAll(s: State, acts: seq<Act>): State
    requires CanActAll(s, acts)
    decreases acts
  {
    if acts == [] then s else ActAll(ActStep(s, acts[0]), acts[1..])
  }

  /** White space as `trim` knows it. */
  predicate IsBlank(c: char) {
    var n := c as int;
    9 <= n <= 13 || n in {32, 0xA0, 0x1680, 0x2028, 0x2029, 0x202F, 0x205F, 0x3000, 0xFEFF} || 0x2000 <= n <= 0x200A
  }

  predicate Blank(url: Url) {
    forall c | c in url :: IsBlank(c)
  }

  /** Among the characters of ASCII: the six of the C locale. */
  lemma AsciiBlanks(c: char)
    requires c as int < 128
    ensures IsBlank(c) <==> c in "\t\n\U{0b}\U{0c}\r "
  {
  }

  function WithSocket(s: State, ws: Id, state: ReadyState): State
    requires ws in s.sockets
  {
    s.(sockets := s.sockets[ws := s.sockets[ws].(state := state)])
  }

  function Connect(s: State, url: Url): State {
    s.(sockets := s.sockets[s.next := Socket(url, CONNECTING)], current := Some(s.next),
       allowed := s.allowed + {s.next}, next := s.next + 1, made := s.made + 1)
  }

  /** `close()` on a socket that is not closed yet. */
  function Close(s: State, ws: Id): State {
    if ws in s.sockets && s.sockets[ws].state in {CONNECTING, OPEN} then WithSocket(s, ws, CLOSING) else s
  }

  function ClearTimer(s: State): State {
    if s.timerRef.Some? then s.(timers := s.timers - {s.timerRef.value}, timerRef := None) else s
  }

  /** What `disconnect` and the effect's cleanup share. */
  function StopReconnecting(s: State): State {
    var s1 := ClearTimer(s.(shouldReconnect := false));
    if s1.current.None? then s1
    else Close(s1.(allowed := s1.allowed - {s1.current.value}), s1.current.value)
  }

  /** The reconnection decision of `onclose`; `can` was read before the callbacks. */
  function Decide(s: State, url: Url, can: bool, enabled: bool, maxAttempts: Option<nat>): State {
    if enabled && can && s.shouldReconnect && (maxAttempts.Some? ==> s.attempts < maxAttempts.value)
    then s.(attempts := s.attempts + 1, timers := s.timers[s.next := url], timerRef := Some(s.next), next := s.next + 1)
    else s
  }

  function Next(s: State, e: Event): State
    requires Enabled(s, e)
  {
    match e
    case Acts(act) => ActStep(s, act)
    case Opened(ws) => WithSocket(s, ws, OPEN).(attempts := 0, made := 0, hasOpened := true)
    case PeerCloses(ws) => WithSocket(s, ws, CLOSING)
    case Closed(ws, enabled, maxAttempts, during) =>
      var s1 := ActAll(WithSocket(s, ws, CLOSED), during);
      Decide(s1, s.sockets[ws].url, ws in s.allowed, enabled, maxAttempts)
    case Fire(timer) => Connect(s.(timers := s.timers - {timer}), s.timers[timer])
  }

  predicate Possible(s: State, es: seq<Event>)
    decreases es
  {
    es == [] || (Enabled(s, es[0]) && Possible(Next(s, es[0]), es[1..]))
  }

  function Run(s: State, es: seq<Event>): State
    requires Possible(s, es)
    decreases es
  {
    if es == [] then s else Run(Next(s, es[0]), es[1..])
  }

  const NORMAL_CLOSURE := 1000  // section 7.4.1 of RFC 6455

  /** The hook's refs, the browser's sockets and timers, and one method for each way into
      the hook: its effect and its cleanup, each event of a socket, each timer and
      `disconnect`. Each takes the step of its event. */
  class Hook {
    var sockets: map<Id, Socket>
    var current: Option<Id>
    var allowed: set<Id>
    var shouldReconnect: bool
    var attempts: nat
    var timers: map<Id, Url>
    var timerRef: Option<Id>
    var mounted: Option<Url>
    var next: Id
    ghost var made: nat
    ghost var hasOpened: bool

    ghost function View(): State
      reads this
    {
      State(sockets, current, allowed, shouldReconnect, attempts, timers, timerRef, mounted, next, made, hasOpened)
    }

    constructor ()
      ensures View() == INITIAL
    {
      sockets, current, allowed, shouldReconnect := map[], None, {}, true;
      attempts, timers, timerRef, mounted, next := 0, map[], None, None, 0;
      made, hasOpened := 0, false;
    }

    method ConnectWebSocket(url: Url)
      modifies this
      ensures View() == Connect(old(View()), url)
    {
      var ws := next;
      next := next + 1;
      sockets := sockets[ws := Socket(url, CONNECTING)];
      current := Some(ws);
      allowed := allowed + {ws};
      made := made + 1;
    }

    method CloseSocket(ws: Id)
      modifies this`sockets
      ensures View() == Close(old(View()), ws)
    {
      if ws in sockets && sockets[ws].state in {CONNECTING, OPEN} {
        sockets := sockets[ws := sockets[ws].(state := CLOSING)];
      }
    }

    method OnMount(url: Url)
      requires CanAct(View(), Mount(url))
      modifies this
      ensures View() == ActStep(old(View()), Mount(url))
    {
      shouldReconnect := true;
      attempts := 0;
      mounted, made, hasOpened := Some(url), 0, false;
      if !Blank(url) {
        ConnectWebSocket(url);
      }
    }

    method OnCleanup()
      requires CanAct(View(), Cleanup)
      modifies this
      ensures View() == ActStep(old(View()), Cleanup)
    {
      DisconnectAll();
      current := None;
      mounted := None;
    }

    method DisconnectAll()
      modifies this
      ensures View() == StopReconnecting(old(View()))
    {
      shouldReconnect := false;
      if timerRef.Some? {
        timers := timers - {timerRef.value};
        timerRef := None;
      }
      if current.Some? {
        allowed := allowed - {current.value};
        CloseSocket(current.value);
      }
    }

    method OnOpen(ws: Id)
      requires Enabled(View(), Opened(ws))
      modifies this
      ensures View() == Next(old(View()), Opened(ws))
    {
      sockets := sockets[ws := sockets[ws].(state := OPEN)];
      attempts := 0;
      made, hasOpened := 0, true;
    }

    /** What the user's callbacks do to the hook. */
    method RunCallbacks(during: seq<Act>)
      requires CanActAll(View(), during)
      modifies this
      ensures View() == ActAll(old(View()), during)
    {
      var i := 0;
      while i < |during|
        invariant i <= |during| && CanActAll(View(), during[i..])
        invariant ActAll(View(), during[i..]) == ActAll(old(View()), during)
      {
        assert during[i..][1..] == during[i + 1..];
        match during[i] {
          case Mount(url) => OnMount(url);
          case Cleanup => OnCleanup();
          case Disconnect => DisconnectAll();
        }
        i := i + 1;
      }
    }

    /** `errorReported` is whether the user's error handler is called. */
    method OnClose(ws: Id, code: nat, enabled: bool, maxAttempts: Option<nat>, during: seq<Act>)
      returns (errorReported: bool)
      requires Enabled(View(), Closed(ws, enabled, maxAttempts, during))
      modifies this
      ensures View() == Next(old(View()), Closed(ws, enabled, maxAttempts, during))
      ensures errorReported <==> code != NORMAL_CLOSURE && ws in old(allowed)
    {
      var url := sockets[ws].url;
      sockets := sockets[ws := sockets[ws].(state := CLOSED)];
      var canReconnect := ws in allowed;
      errorReported := code != NORMAL_CLOSURE && canReconnect;
      assert View() == WithSocket(old(View()), ws, CLOSED);
      RunCallbacks(during);
      if enabled && canReconnect && shouldReconnect && (maxAttempts.Some? ==> attempts < maxAttempts.value) {
        attempts := attempts + 1;
        timers := timers[next := url];
        timerRef := Some(next);
        next := next + 1;
      }
    }

    method OnTimer(timer: Id)
      requires Enabled(View(), Fire(timer))
      modifies this
      ensures View() == Next(old(View()), Fire(timer))
    {
      var url := timers[timer];
      timers := timers - {timer};
      ConnectWebSocket(url);
    }
  }

  // -------------------------------------------------------------------- laws

  /** A socket that is not closed and whose close would reconnect. */
  predicate MayReconnect(s: State, ws: Id) {
    ws in s.sockets && s.sockets[ws].state != CLOSED && ws in s.allowed
  }

  ghost predicate Inv(s: State) {
    && (forall ws | ws in s.sockets :: ws < s.next && !Blank(s.sockets[ws].url))
    && (forall t | t in s.timers :: t < s.next)
    && (s.current.Some? ==> s.current.value in s.sockets && s.mounted == Some(s.sockets[s.current.value].url))
    && (s.timerRef.Some? ==> s.timerRef.value < s.next)
    && s.allowed <= s.sockets.Keys
    && (forall ws | ws in s.sockets && MayReconnect(s, ws) :: s.current == Some(ws) && s.shouldReconnect)
    && (forall ws | ws in s.sockets && s.sockets[ws].state in {CONNECTING, OPEN} :: ws in s.allowed)
    && (forall t | t in s.timers ::
          && s.timerRef == Some(t) && s.mounted == Some(s.timers[t]) && s.shouldReconnect
          && (forall ws | ws in s.sockets :: !MayReconnect(s, ws)))
    && (s.timers != map[] ==> s.current.Some?)
  }

  /** No timer runs, and no close event can set one. */
  ghost predicate Quiet(s: State) {
    && !s.shouldReconnect
    && s.timers == map[]
    && (forall ws | ws in s.sockets :: !MayReconnect(s, ws))
  }

  lemma StopFrame(s: State)
    ensures var s' := StopReconnecting(s);
      && s'.current == s.current && s'.mounted == s.mounted && s'.next == s.next
      && s'.attempts == s.attempts && s'.made == s.made && s'.hasOpened == s.hasOpened
      && s'.sockets.Keys == s.sockets.Keys && !s'.shouldReconnect
      && s'.allowed == (if s.current.Some? then s.allowed - {s.current.value} else s.allowed)
      && s'.timers == (if s.timerRef.Some? then s.timers - {s.timerRef.value} else s.timers)
      && (s'.timerRef == None || s'.timerRef == s.timerRef)
      && (forall ws | ws in s.sockets ::
            && s'.sockets[ws].url == s.sockets[ws].url
            && (s.sockets[ws].state == CLOSED <==> s'.sockets[ws].state == CLOSED)
            && (s'.sockets[ws].state in {CONNECTING, OPEN} ==>
                  s'.sockets[ws] == s.sockets[ws] && s.current != Some(ws)))
  {
  }

  lemma StopInv(s: State)
    requires Inv(s)
    ensures Inv(StopReconnecting(s)) && Quiet(StopReconnecting(s))
    ensures StopReconnecting(s).sockets.Keys == s.sockets.Keys
  {
    StopFrame(s);
    var s' := StopReconnecting(s);
    assert s'.timers == map[];
    assert forall ws | ws in s'.sockets :: MayReconnect(s', ws) ==> MayReconnect(s, ws) && s.current != Some(ws);
  }

  lemma ConnectInv(s: State, url: Url)
    requires Inv(s) && s.timers == map[] && s.mounted == Some(url) && s.shouldReconnect && !Blank(url)
    requires forall ws | ws in s.sockets :: !MayReconnect(s, ws)
    ensures Inv(Connect(s, url))
  {
  }

  lemma ActInv(s: State, act: Act)
    requires Inv(s) && CanAct(s, act)
    ensures Inv(ActStep(s, act))
    ensures ActStep(s, act).shouldReconnect == act.Mount?
  {
    match act
    case Mount(url) =>
      if !Blank(url) {
        var s1 := s.(shouldReconnect := true, attempts := 0, mounted := Some(url), made := 0, hasOpened := false);
        ConnectInv(s1, url);
      }
    case Cleanup => StopInv(s);
    case Disconnect => StopInv(s);
  }

  /** Whether the callbacks leave the hook mounted anew. */
  predicate EndsInMount(acts: seq<Act>) {
    acts != [] && acts[|acts| - 1].Mount?
  }

  lemma {:induction false} ActAllInv(s: State, acts: seq<Act>)
    requires Inv(s) && CanActAll(s, acts)
    ensures Inv(ActAll(s, acts))
    ensures acts != [] ==> ActAll(s, acts).shouldReconnect == EndsInMount(acts)
    decreases acts
  {
    if acts == [] {
    } else {
      ActInv(s, acts[0]);
      ActAllInv(ActStep(s, acts[0]), acts[1..]);
    }
  }

  lemma CloseSocketInv(s: State, ws: Id)
    requires Inv(s) && ws in s.sockets
    ensures Inv(WithSocket(s, ws, CLOSED))
    ensures forall x | x in s.sockets :: MayReconnect(WithSocket(s, ws, CLOSED), x) <==> MayReconnect(s, x) && x != ws
  {
  }

  /** Whether a close sets a timer although its callbacks have mounted the hook anew. */
  predicate ReconnectsIntoMount(s: State, e: Event) {
    && e.Closed? && EndsInMount(e.during)
    && e.enabled && e.ws in s.allowed && (e.maxAttempts.Some? ==> 0 < e.maxAttempts.value)
  }

  lemma DecideInv(s: State, ws: Id, enabled: bool, maxAttempts: Option<nat>)
    requires Inv(s) && ws in s.sockets && s.sockets[ws].state != CLOSED
    ensures Inv(Decide(WithSocket(s, ws, CLOSED), s.sockets[ws].url, ws in s.allowed, enabled, maxAttempts))
  {
    CloseSocketInv(s, ws);
  }

  lemma ClosedInv(s: State, e: Event)
    requires Inv(s) && e.Closed? && Enabled(s, e) && !ReconnectsIntoMount(s, e)
    ensures Inv(Next(s, e))
  {
    CloseSocketInv(s, e.ws);
    var s1 := WithSocket(s, e.ws, CLOSED);
    ActAllInv(s1, e.during);
    if e.during == [] {
      DecideInv(s, e.ws, e.enabled, e.maxAttempts);
    } else if EndsInMount(e.during) {
      MountedAnew(s1, e.during);
    }
  }

  lemma SameSize(a: map<Id, Socket>, b: map<Id, Socket>)
    requires a.Keys == b.Keys
    ensures |a| == |b|
  {
    assert |a| == |a.Keys| && |b| == |b.Keys|;
  }

  lemma ConnectCounts(s: State, url: Url)
    requires s.next !in s.sockets
    ensures |Connect(s, url).sockets| == |s.sockets| + 1 && Connect(s, url).made == s.made + 1
  {
  }

  /** `made` counts the sockets made since the last mount or open, and `hasOpened` says whether
      one opened since the mount: what an act does to them. */
  lemma ActCounts(s: State, act: Act)
    requires CanAct(s, act) && s.next !in s.sockets
    ensures var s' := ActStep(s, act);
      && s'.made == (if act.Mount? then 0 else s.made) + |s'.sockets| - |s.sockets|
      && s'.hasOpened == (s.hasOpened && !act.Mount?)
  {
    if act.Mount? {
      var s1 := s.(shouldReconnect := true, attempts := 0, mounted := Some(act.url), made := 0, hasOpened := false);
      ConnectCounts(s1, act.url);
    } else {
      StopFrame(s);
      SameSize(s.sockets, ActStep(s, act).sockets);
    }
  }

  /** And the other events, a close without callbacks included. */
  lemma EventCounts(s: State, e: Event)
    requires Enabled(s, e) && !e.Acts? && (e.Closed? ==> e.during == []) && s.next !in s.sockets
    ensures var s' := Next(s, e);
      && s'.made == (if e.Opened? then 0 else s.made) + |s'.sockets| - |s.sockets|
      && s'.hasOpened == (e.Opened? || s.hasOpened)
  {
    if e.Fire? {
      ConnectCounts(s.(timers := s.timers - {e.timer}), s.timers[e.timer]);
    } else {
      assert s.sockets.Keys == Next(s, e).sockets.Keys;
      SameSize(s.sockets, Next(s, e).sockets);
    }
  }

  /** A mount leaves no attempt counted and, but for a blank URL, a socket that may reconnect. */
  lemma {:induction false} MountedAnew(s: State, acts: seq<Act>)
    requires Inv(s) && CanActAll(s, acts) && EndsInMount(acts)
    ensures var s', url := ActAll(s, acts), acts[|acts| - 1].url;
      && s'.attempts == 0 && s'.mounted == Some(url)
      && (!Blank(url) ==> s'.current.Some? && MayReconnect(s', s'.current.value))
    decreases acts
  {
    ActInv(s, acts[0]);
    if |acts| == 1 {
      assert ActAll(ActStep(s, acts[0]), acts[1..]) == ActStep(s, acts[0]);
    } else {
      MountedAnew(ActStep(s, acts[0]), acts[1..]);
    }
  }

  lemma SocketInv(s: State, e: Event)
    requires Inv(s) && Enabled(s, e) && (e.Opened? || e.PeerCloses?)
    ensures Inv(Next(s, e))
  {
    assert forall x | x in s.sockets :: MayReconnect(Next(s, e), x) ==> MayReconnect(s, x);
  }

  lemma StepInv(s: State, e: Event)
    requires Inv(s) && Enabled(s, e) && !ReconnectsIntoMount(s, e)
    ensures Inv(Next(s, e))
  {
    match e
    case Acts(act) => ActInv(s, act);
    case Opened(_) => SocketInv(s, e);
    case PeerCloses(_) => SocketInv(s, e);
    case Closed(_, _, _, _) => ClosedInv(s, e);
    case Fire(timer) => ConnectInv(s.(timers := s.timers - {timer}), s.timers[timer]);
  }

  /** What is wanted of every moment: at most one unclosed socket may reconnect, it is the
      current one and has the mounted URL; at most one timer runs, it is the one the ref can
      clear, it will connect to the mounted URL, and then no socket may reconnect. */
  ghost predicate Safe(s: State) {
    && (forall a, b | a in s.sockets && b in s.sockets && MayReconnect(s, a) && MayReconnect(s, b) :: a == b)
    && (forall a | a in s.sockets && MayReconnect(s, a) ::
          s.mounted == Some(s.sockets[a].url) && s.current == Some(a))
    && (forall t, u | t in s.timers && u in s.timers :: t == u)
    && (forall t | t in s.timers ::
          && s.timerRef == Some(t) && s.mounted == Some(s.timers[t])
          && forall a | a in s.sockets :: !MayReconnect(s, a))
  }

  lemma InvSafe(s: State)
    requires Inv(s)
    ensures Safe(s)
  {
  }

  lemma IntoMountUnsafe(s: State, e: Event)
    requires Inv(s) && Enabled(s, e) && ReconnectsIntoMount(s, e)
    ensures !Safe(Next(s, e))
  {
    var s1 := ActAll(WithSocket(s, e.ws, CLOSED), e.during);
    CloseSocketInv(s, e.ws);
    ActAllInv(WithSocket(s, e.ws, CLOSED), e.during);
    MountedAnew(WithSocket(s, e.ws, CLOSED), e.during);
    var s' := Next(s, e);
    assert s'.timers == s1.timers[s1.next := s.sockets[e.ws].url] && s1.next in s'.timers;
    if s1.current.Some? && MayReconnect(s1, s1.current.value) {
      assert MayReconnect(s', s1.current.value);
    }
  }

  ghost predicate SafeThroughout(s: State, es: seq<Event>)
    requires Possible(s, es)
    decreases es
  {
    Safe(s) && (es == [] || SafeThroughout(Next(s, es[0]), es[1..]))
  }

  /** No close sets a timer although its callbacks have mounted the hook anew. */
  predicate NeverIntoMount(s: State, es: seq<Event>)
    requires Possible(s, es)
    decreases es
  {
    es == [] || (!ReconnectsIntoMount(s, es[0]) && NeverIntoMount(Next(s, es[0]), es[1..]))
  }

  lemma {:induction false} SafeIffNever(s: State, es: seq<Event>)
    requires Inv(s) && Possible(s, es)
    ensures SafeThroughout(s, es) <==> NeverIntoMount(s, es)
    decreases es
  {
    InvSafe(s);
    if es == [] {
    } else if ReconnectsIntoMount(s, es[0]) {
      IntoMountUnsafe(s, es[0]);
    } else {
      StepInv(s, es[0]);
      SafeIffNever(Next(s, es[0]), es[1..]);
    }
  }

  /** For every run: it is safe at every moment if and only if no close set a timer after
      its callbacks had mounted the hook anew. */
  lemma AtMostOneReconnects(es: seq<Event>)
    requires Possible(INITIAL, es)
    ensures SafeThroughout(INITIAL, es) <==> NeverIntoMount(INITIAL, es)
  {
    SafeIffNever(INITIAL, es);
  }

  lemma {:induction false} RunInv(s: State, es: seq<Event>)
    requires Inv(s) && Possible(s, es) && NeverIntoMount(s, es)
    ensures Inv(Run(s, es))
    decreases es
  {
    if es == [] {
    } else {
      StepInv(s, es[0]);
      RunInv(Next(s, es[0]), es[1..]);
    }
  }

  // --------------------------------------------------------------- after a stop

  predicate HasMount(acts: seq<Act>) {
    exists act :: act in acts && act.Mount?
  }

  predicate Mounts(e: Event) {
    (e.Acts? && e.act.Mount?) || (e.Closed? && HasMount(e.during))
  }

  predicate WithoutMount(es: seq<Event>) {
    forall e | e in es :: !Mounts(e)
  }

  /** No timer runs, and none will be set before a mount. */
  predicate Stopped(s: State) {
    !s.shouldReconnect && s.timers == map[]
  }

  lemma StoppedAct(s: State, act: Act)
    requires Stopped(s) && CanAct(s, act) && !act.Mount?
    ensures Stopped(ActStep(s, act)) && ActStep(s, act).sockets.Keys == s.sockets.Keys
  {
    StopFrame(s);
  }

  lemma {:induction false} StoppedActs(s: State, acts: seq<Act>)
    requires Stopped(s) && CanActAll(s, acts) && !HasMount(acts)
    ensures Stopped(ActAll(s, acts)) && ActAll(s, acts).sockets.Keys == s.sockets.Keys
    decreases acts
  {
    if acts == [] {
    } else {
      assert acts[0] in acts && forall act | act in acts[1..] :: act in acts;
      StoppedAct(s, acts[0]);
      StoppedActs(ActStep(s, acts[0]), acts[1..]);
    }
  }

  lemma StoppedStep(s: State, e: Event)
    requires Stopped(s) && Enabled(s, e) && !Mounts(e)
    ensures Stopped(Next(s, e)) && Next(s, e).sockets.Keys == s.sockets.Keys
  {
    if e.Acts? {
      StoppedAct(s, e.act);
    } else if e.Closed? {
      StoppedActs(WithSocket(s, e.ws, CLOSED), e.during);
    }
  }

  lemma {:induction false} StoppedRun(s: State, es: seq<Event>)
    requires Stopped(s) && Possible(s, es) && WithoutMount(es)
    ensures Run(s, es).sockets.Keys == s.sockets.Keys
    decreases es
  {
    if es == [] {
    } else {
      assert es[0] in es && forall e | e in es[1..] :: e in es;
      StoppedStep(s, es[0]);
      StoppedRun(Next(s, es[0]), es[1..]);
    }
  }

  /** The timers that a stop cannot clear. */
  function LostTimers(s: State): set<Id> {
    set t | t in s.timers && s.timerRef != Some(t)
  }

  ghost predicate NoneMadeAfter(s: State) {
    forall after | Possible(s, after) && WithoutMount(after) :: Run(s, after).sockets.Keys == s.sockets.Keys
  }

  /** In any state at all: after a cleanup or a `disconnect`, no socket is made until the next
      mount, whatever the old ones do, if and only if the ref held the only timer. */
  lemma NoneMadeIff(s: State, stop: Act)
    requires CanAct(s, stop) && !stop.Mount? && forall ws | ws in s.sockets :: ws < s.next
    ensures NoneMadeAfter(ActStep(s, stop)) <==> LostTimers(s) == {}
  {
    StopFrame(s);
    var s' := ActStep(s, stop);
    assert s'.timers.Keys == LostTimers(s);
    if LostTimers(s) == {} {
      forall after | Possible(s', after) && WithoutMount(after) ensures Run(s', after).sockets.Keys == s'.sockets.Keys {
        StoppedRun(s', after);
      }
    } else {
      var t :| t in s'.timers;
      var after := [Fire(t)];
      assert after[1..] == [] && Possible(Next(s', Fire(t)), []);
      assert Run(s', after) == Next(s', Fire(t));
      assert s'.next in Next(s', Fire(t)).sockets;
    }
  }

  /** So it is in every run in which no close reconnected into a mount. */
  lemma NoneMadeUntilMount(before: seq<Event>, stop: Act, after: seq<Event>)
    requires Possible(INITIAL, before) && NeverIntoMount(INITIAL, before)
    requires !stop.Mount? && CanAct(Run(INITIAL, before), stop)
    requires Possible(ActStep(Run(INITIAL, before), stop), after) && WithoutMount(after)
    ensures Run(ActStep(Run(INITIAL, before), stop), after).sockets.Keys == Run(INITIAL, before).sockets.Keys
  {
    RunInv(INITIAL, before);
    var s := Run(INITIAL, before);
    NoneMadeIff(s, stop);
    StopFrame(s);
  }

  lemma RunOne(s: State, e: Event, es: seq<Event>)
    requires Enabled(s, e) && Possible(Next(s, e), es)
    ensures Possible(s, [e] + es) && Run(s, [e] + es) == Run(Next(s, e), es)
  {
    assert ([e] + es)[1..] == es;
  }

  /** The run that the condition shuts out: the first socket's close callback changes the URL,
      then the new socket closes too. The ref has lost the timer of the first URL, and a
      cleanup does not stop it from making a socket. */
  lemma ChangedInCallback(a: Url, b: Url) returns (es: seq<Event>)
    requires !Blank(a) && !Blank(b)
    ensures Possible(INITIAL, es) && !SafeThroughout(INITIAL, es)
    ensures var s := Run(INITIAL, es);
      && CanAct(s, Cleanup) && LostTimers(s) == {2} && s.timers[2] == a && s.mounted == Some(b)
      && !NoneMadeAfter(ActStep(s, Cleanup))
  {
    var closes, closesToo := Closed(0, true, None, [Cleanup, Mount(b)]), Closed(1, true, None, []);
    var s1 := Next(INITIAL, Acts(Mount(a)));
    var closed := WithSocket(s1, 0, CLOSED);
    var unmounted := ActStep(closed, Cleanup);
    assert [Cleanup, Mount(b)][1..] == [Mount(b)] && [Mount(b)][1..] == [];
    var anew := ActStep(unmounted, Mount(b));
    assert ActAll(closed, [Cleanup, Mount(b)]) == ActAll(unmounted, [Mount(b)]) == ActAll(anew, []) == anew;
    var s2 := Next(s1, closes);
    var s3 := Next(s2, closesToo);
    RunOne(s2, closesToo, []);
    RunOne(s1, closes, [closesToo] + []);
    es := [closes] + ([closesToo] + []);
    RunOne(INITIAL, Acts(Mount(a)), es);
    assert !NeverIntoMount(s1, es);
    es := [Acts(Mount(a))] + es;
    assert es[1..] == [closes] + ([closesToo] + []);
    AtMostOneReconnects(es);
    assert LostTimers(s3) == {2};
    NoneMadeIff(s3, Cleanup);
  }

  /** Old sockets cannot reconnect into a later mount: their close only closes them. */
  lemma OldSocketsOnlyClose(es: seq<Event>, ws: Id, enabled: bool, maxAttempts: Option<nat>)
    requires Possible(INITIAL, es) && NeverIntoMount(INITIAL, es)
    requires var s := Run(INITIAL, es);
      ws in s.sockets && s.sockets[ws].state != CLOSED && s.current != Some(ws)
    ensures var s := Run(INITIAL, es);
      Next(s, Closed(ws, enabled, maxAttempts, [])) == WithSocket(s, ws, CLOSED)
  {
    RunInv(INITIAL, es);
  }

  // ------------------------------------------------------------------- bound

  predicate FixedMax(es: seq<Event>, maxAttempts: nat) {
    forall e | e in es && e.Closed? :: e.maxAttempts == Some(maxAttempts)
  }

  predicate Bound(s: State, maxAttempts: nat) {
    && s.attempts <= maxAttempts
    && s.made + (if s.timers == map[] then 0 else 1) <= s.attempts + if s.hasOpened then 0 else 1
  }

  lemma ActBound(s: State, act: Act, maxAttempts: nat)
    requires Inv(s) && Bound(s, maxAttempts) && CanAct(s, act)
    ensures Bound(ActStep(s, act), maxAttempts)
  {
    StopFrame(s);
    if !act.Mount? {
      StopInv(s);
    }
  }

  lemma {:induction false} ActAllBound(s: State, acts: seq<Act>, maxAttempts: nat)
    requires Inv(s) && Bound(s, maxAttempts) && CanActAll(s, acts)
    ensures Bound(ActAll(s, acts), maxAttempts)
    decreases acts
  {
    if acts == [] {
    } else {
      ActInv(s, acts[0]);
      ActBound(s, acts[0], maxAttempts);
      ActAllBound(ActStep(s, acts[0]), acts[1..], maxAttempts);
    }
  }

  lemma ClosedBound(s: State, e: Event, maxAttempts: nat)
    requires Inv(s) && Bound(s, maxAttempts) && Enabled(s, e) && !ReconnectsIntoMount(s, e)
    requires e.Closed? && e.maxAttempts == Some(maxAttempts)
    ensures Bound(Next(s, e), maxAttempts)
  {
    var s1 := WithSocket(s, e.ws, CLOSED);
    CloseSocketInv(s, e.ws);
    ActAllInv(s1, e.during);
    ActAllBound(s1, e.during, maxAttempts);
    if e.during == [] && e.ws in s.allowed {
      assert MayReconnect(s, e.ws) && s.timers == map[];
    }
    if EndsInMount(e.during) {
      MountedAnew(s1, e.during);
    }
  }

  lemma StepBound(s: State, e: Event, maxAttempts: nat)
    requires Inv(s) && Bound(s, maxAttempts) && Enabled(s, e) && !ReconnectsIntoMount(s, e)
    requires e.Closed? ==> e.maxAttempts == Some(maxAttempts)
    ensures Bound(Next(s, e), maxAttempts)
  {
    if e.Closed? {
      ClosedBound(s, e, maxAttempts);
    } else if e.Opened? {
      assert MayReconnect(s, e.ws) && s.timers == map[];
    } else if e.Acts? {
      ActBound(s, e.act, maxAttempts);
    }
  }

  lemma {:induction false} RunBound(s: State, es: seq<Event>, maxAttempts: nat)
    requires Inv(s) && Bound(s, maxAttempts) && Possible(s, es) && FixedMax(es, maxAttempts) && NeverIntoMount(s, es)
    ensures Bound(Run(s, es), maxAttempts)
    decreases es
  {
    if es == [] {
    } else {
      StepInv(s, es[0]);
      StepBound(s, es[0], maxAttempts);
      RunBound(Next(s, es[0]), es[1..], maxAttempts);
    }
  }

  /** With a fixed `maxAttempts`, at most that many sockets are made after an open until
      the next one, and one more between a mount and its first open. */
  lemma SocketsBetweenOpens(es: seq<Event>, maxAttempts: nat)
    requires Possible(INITIAL, es) && FixedMax(es, maxAttempts) && NeverIntoMount(INITIAL, es)
    ensures var s := Run(INITIAL, es);
      s.made <= if s.hasOpened then maxAttempts else 1 + maxAttempts
  {
    RunBound(INITIAL, es, maxAttempts);
  }

  // ------------------------------------------------------- what reconnects, and when

  /** The bookkeeping of ids, which holds in every run whatever the callbacks do. */
  ghost predicate Ids(s: State) {
    && (forall ws | ws in s.sockets :: ws < s.next)
    && (forall t | t in s.timers :: t < s.next)
    && (s.current.Some? ==> s.current.value in s.sockets)
    && s.allowed <= s.sockets.Keys
  }

  /** Stopping takes the current socket's permission away. */
  predicate DropsAct(s: State, act: Act, ws: Id) {
    !act.Mount? && s.current == Some(ws)
  }

  predicate DropsActs(s: State, acts: seq<Act>, ws: Id)
    requires CanActAll(s, acts)
    decreases acts
  {
    acts != [] && (DropsAct(s, acts[0], ws) || DropsActs(ActStep(s, acts[0]), acts[1..], ws))
  }

  predicate Drops(s: State, e: Event, ws: Id)
    requires Enabled(s, e)
  {
    match e
    case Acts(act) => DropsAct(s, act, ws)
    case Closed(x, _, _, during) => DropsActs(WithSocket(s, x, CLOSED), during, ws)
    case _ => false
  }

  /** Somewhere in the run a cleanup or a `disconnect` came while the socket was current. */
  predicate DroppedIn(s: State, es: seq<Event>, ws: Id)
    requires Possible(s, es)
    decreases es
  {
    es != [] && (Drops(s, es[0], ws) || DroppedIn(Next(s, es[0]), es[1..], ws))
  }

  predicate AllowedBetween(s: State, s': State, dropped: bool, ws: Id) {
    && (ws in s'.allowed <==> !dropped && (ws in s.allowed || (ws !in s.sockets && ws in s'.sockets)))
    && (dropped ==> ws in s'.sockets)
  }

  lemma ActIds(s: State, act: Act, ws: Id)
    requires Ids(s) && CanAct(s, act)
    ensures var s' := ActStep(s, act);
      && Ids(s') && s.sockets.Keys <= s'.sockets.Keys && s'.timers.Keys <= s.timers.Keys && s.next <= s'.next
      && s'.shouldReconnect == act.Mount?
      && s'.attempts == (if act.Mount? then 0 else s.attempts)
      && AllowedBetween(s, s', DropsAct(s, act, ws), ws)
  {
    StopFrame(s);
  }

  lemma {:induction false} ActAllIds(s: State, acts: seq<Act>, ws: Id)
    requires Ids(s) && CanActAll(s, acts)
    ensures var s' := ActAll(s, acts);
      && Ids(s') && s.sockets.Keys <= s'.sockets.Keys && s'.timers.Keys <= s.timers.Keys && s.next <= s'.next
      && s'.shouldReconnect == (if acts == [] then s.shouldReconnect else EndsInMount(acts))
      && s'.attempts == (if HasMount(acts) then 0 else s.attempts)
      && AllowedBetween(s, s', DropsActs(s, acts, ws), ws)
    decreases acts
  {
    if acts == [] {
    } else {
      ActIds(s, acts[0], ws);
      ActAllIds(ActStep(s, acts[0]), acts[1..], ws);
      assert acts == [acts[0]] + acts[1..];
    }
  }

  /** Whether an event sets a timer. */
  predicate SetsTimer(s: State, e: Event)
    requires Enabled(s, e)
  {
    !(Next(s, e).timers.Keys <= s.timers.Keys)
  }

  /** The tries since the socket last opened or the hook was last mounted: the timers set. */
  function TriesAfter(s: State, e: Event, tries: nat): nat
    requires Enabled(s, e)
  {
    (if e.Opened? || Mounts(e) then 0 else tries) + if SetsTimer(s, e) then 1 else 0
  }

  function Tries(s: State, es: seq<Event>, tries: nat): nat
    requires Possible(s, es)
    decreases es
  {
    if es == [] then tries else Tries(Next(s, es[0]), es[1..], TriesAfter(s, es[0], tries))
  }

  function ActsOf(e: Event): seq<Act> {
    match e
    case Acts(act) => [act]
    case Closed(_, _, _, during) => during
    case _ => []
  }

  function AllActs(es: seq<Event>): seq<Act> {
    if es == [] then [] else ActsOf(es[0]) + AllActs(es[1..])
  }

  lemma LastOfBoth(a: seq<Act>, b: seq<Act>)
    ensures EndsInMount(a + b) <==> if b == [] then EndsInMount(a) else EndsInMount(b)
    ensures a + b == [] <==> a == [] && b == []
  {
    assert b == [] ==> a + b == a;
  }

  predicate StepLaw(s: State, e: Event, ws: Id)
    requires Enabled(s, e)
  {
    var s' := Next(s, e);
    && s.sockets.Keys <= s'.sockets.Keys
    && s'.shouldReconnect == (if ActsOf(e) == [] then s.shouldReconnect else EndsInMount(ActsOf(e)))
    && s'.attempts == TriesAfter(s, e, s.attempts)
    && AllowedBetween(s, s', Drops(s, e, ws), ws)
  }

  /** One timer is new, it is for the URL of the socket, and the ref holds it. */
  predicate SetsOne(s: State, s': State, ws: Id)
    requires ws in s.sockets
  {
    && s'.timerRef.Some? && s'.timerRef.value in s'.timers && s'.timerRef.value !in s.timers
    && s'.timers[s'.timerRef.value] == s.sockets[ws].url
    && s'.timers.Keys <= s.timers.Keys + {s'.timerRef.value}
  }

  lemma ClosedSets(s: State, e: Event)
    requires Ids(s) && Enabled(s, e) && e.Closed?
    ensures var s1, s' := ActAll(WithSocket(s, e.ws, CLOSED), e.during), Next(s, e);
      && (SetsTimer(s, e) <==>
            && e.enabled && e.ws in s.allowed && s1.shouldReconnect
            && (e.maxAttempts.Some? ==> s1.attempts < e.maxAttempts.value))
      && (if SetsTimer(s, e) then SetsOne(s, s', e.ws) && s' == s1.(attempts := s1.attempts + 1, timers := s'.timers,
                                                                    timerRef := s'.timerRef, next := s1.next + 1)
          else s' == s1)
      && (forall t | t in s'.timers :: t < s'.next)
  {
    var closed := WithSocket(s, e.ws, CLOSED);
    assert closed.timers == s.timers && closed.sockets.Keys == s.sockets.Keys;
    ActAllIds(closed, e.during, e.ws);
    var s1 := ActAll(closed, e.during);
    assert s1.next !in s.timers;
  }

  lemma ClosedIds(s: State, e: Event, ws: Id)
    requires Ids(s) && Enabled(s, e) && e.Closed?
    ensures Ids(Next(s, e)) && StepLaw(s, e, ws)
  {
    var closed := WithSocket(s, e.ws, CLOSED);
    assert closed.timers == s.timers && closed.sockets.Keys == s.sockets.Keys;
    ActAllIds(closed, e.during, ws);
    ClosedSets(s, e);
  }

  lemma StepIds(s: State, e: Event, ws: Id)
    requires Ids(s) && Enabled(s, e)
    ensures Ids(Next(s, e)) && StepLaw(s, e, ws)
  {
    if e.Closed? {
      ClosedIds(s, e, ws);
    } else if e.Acts? {
      ActIds(s, e.act, ws);
    }
  }

  lemma {:induction false} RunIds(s: State, es: seq<Event>, ws: Id)
    requires Ids(s) && Possible(s, es)
    ensures var s' := Run(s, es);
      && Ids(s') && s.sockets.Keys <= s'.sockets.Keys
      && s'.shouldReconnect == (if AllActs(es) == [] then s.shouldReconnect else EndsInMount(AllActs(es)))
      && s'.attempts == Tries(s, es, s.attempts)
      && AllowedBetween(s, s', DroppedIn(s, es, ws), ws)
    decreases es
  {
    if es == [] {
    } else {
      StepIds(s, es[0], ws);
      RunIds(Next(s, es[0]), es[1..], ws);
      LastOfBoth(ActsOf(es[0]), AllActs(es[1..]));
    }
  }

  /** Exactly when a close reconnects, in every run, from its events alone: reconnecting is
      enabled, no cleanup or `disconnect` ever came while the socket was current, the last
      one to act on the hook, callbacks of this close included, was a mount, and there were
      fewer tries than the maximum since the last open or mount. One timer is set then, for
      the URL of the socket, and the ref holds it. */
  lemma ReconnectsIff(es: seq<Event>, e: Event)
    requires Possible(INITIAL, es) && Enabled(Run(INITIAL, es), e) && e.Closed?
    ensures var acts := AllActs(es) + e.during;
      var tries := if HasMount(e.during) then 0 else Tries(INITIAL, es, 0);
      SetsTimer(Run(INITIAL, es), e) <==>
        && e.enabled && !DroppedIn(INITIAL, es, e.ws)
        && (acts == [] || acts[|acts| - 1].Mount?)
        && (e.maxAttempts.Some? ==> tries < e.maxAttempts.value)
    ensures SetsTimer(Run(INITIAL, es), e) ==> SetsOne(Run(INITIAL, es), Next(Run(INITIAL, es), e), e.ws)
  {
    var s := Run(INITIAL, es);
    RunIds(INITIAL, es, e.ws);
    ActAllIds(WithSocket(s, e.ws, CLOSED), e.during, e.ws);
    ClosedSets(s, e);
    LastOfBoth(AllActs(es), e.during);
  }

  /** When the timer fires, one new socket is made for its URL; it is current and may
      reconnect in its turn. */
  lemma FireReconnects(s: State, timer: Id)
    requires Ids(s) && Enabled(s, Fire(timer))
    ensures var s' := Next(s, Fire(timer));
      && s'.current.Some? && s'.current.value !in s.sockets
      && s'.sockets == s.sockets[s'.current.value := Socket(s.timers[timer], CONNECTING)]
      && MayReconnect(s', s'.current.value)
      && s'.timers == s.timers - {timer}
  {
  }

  /** Mounting makes one socket for the URL, unless that is blank; it is current and may
      reconnect. */
  lemma MountConnects(s: State, url: Url)
    requires Ids(s) && CanAct(s, Mount(url))
    ensures var s' := ActStep(s, Mount(url));
      && s'.timers == s.timers && s'.mounted == Some(url)
      && (Blank(url) ==> s'.sockets == s.sockets && s'.current == s.current && s'.allowed == s.allowed)
      && (!Blank(url) ==>
            && s'.current.Some? && s'.current.value !in s.sockets
            && s'.sockets == s.sockets[s'.current.value := Socket(url, CONNECTING)]
            && MayReconnect(s', s'.current.value))
  {
  }

  function Closing(socket: Socket): Socket {
    if socket.state in {CONNECTING, OPEN} then socket.(state := CLOSING) else socket
  }

  lemma StopClosesSocket(s: State, ws: Id)
    requires ws in s.sockets
    ensures ws in StopReconnecting(s).sockets
    ensures StopReconnecting(s).sockets[ws] == if s.current == Some(ws) then Closing(s.sockets[ws]) else s.sockets[ws]
  {
    assert ClearTimer(s.(shouldReconnect := false)).sockets == s.sockets;
  }

  /** A stop closes the current socket, if it is connecting or open, and no other, and clears
      the timer of the ref; after a cleanup no socket is current. */
  lemma StopCloses(s: State, stop: Act, ws: Id)
    requires CanAct(s, stop) && !stop.Mount? && ws in s.sockets
    ensures var s' := ActStep(s, stop);
      && s'.sockets.Keys == s.sockets.Keys
      && s'.sockets[ws] == (if s.current == Some(ws) then Closing(s.sockets[ws]) else s.sockets[ws])
      && s'.current == (if stop.Cleanup? then None else s.current)
      && s'.mounted == (if stop.Cleanup? then None else s.mounted)
      && s'.timers.Keys == s.timers.Keys - (if s.timerRef.Some? then {s.timerRef.value} else {})
  {
    StopFrame(s);
    StopClosesSocket(s, ws);
  }

  /** The states of a socket: an open makes it OPEN, its peer's close CLOSING, and nothing
      else moves it but a stop and its close, which is its last event. */
  lemma SocketStates(s: State, e: Event, ws: Id)
    requires Ids(s) && Enabled(s, e) && ws in s.sockets
    ensures ws in Next(s, e).sockets
    ensures e.Opened? ==>
      Next(s, e).sockets[ws].state == if e.ws == ws then OPEN else s.sockets[ws].state
    ensures e.PeerCloses? ==>
      Next(s, e).sockets[ws].state == if e.ws == ws then CLOSING else s.sockets[ws].state
    ensures e.Closed? && e.ws == ws ==> Next(s, e).sockets[ws].state == CLOSED
    ensures s.sockets[ws].state == CLOSED ==> Next(s, e).sockets[ws] == s.sockets[ws]
  {
    if e.Closed? {
      ClosedForGood(WithSocket(s, e.ws, CLOSED), e.during, ws);
    } else if e.Acts? {
      ClosedForGood(s, [e.act], ws);
    }
  }

  lemma {:induction false} ClosedForGood(s: State, acts: seq<Act>, ws: Id)
    requires Ids(s) && CanActAll(s, acts) && ws in s.sockets
    ensures ws in ActAll(s, acts).sockets
    ensures s.sockets[ws].state == CLOSED ==> ActAll(s, acts).sockets[ws] == s.sockets[ws]
    decreases acts
  {
    if acts == [] {
    } else {
      ActIds(s, acts[0], ws);
      StopFrame(s);
      ClosedForGood(ActStep(s, acts[0]), acts[1..], ws);
    }
  }
}
