/**
 The Redis sliding-window limiter under every interleaving of its clients.

 A client reads its clock, runs one atomic pipeline on the key's sorted set and, if it
 counted too many members, removes its own member in a second step that may come
 late or never. Members are unique.
 */
module RedisLimiter {
  import opened Common

  type Member = nat

  datatype State = State(
    zset: map<Member, real>,     // the sorted set: member to score
    expireAt: Option<real>,      // when the server drops the key
    clock: real,                 // the server's time
    doomed: set<Member>,         // rejected members whose removal is still to come
    admitted: map<Member, real>) // every hit admitted so far, with its time

  const EMPTY := State(map[], None, 0.0, {}, map[])

  datatype Event =
    | Tick(clock: real)
    | Pipeline(member: Member, now: real)  // `now` is what the client read earlier
    | Zrem(member: Member)
    | Expire

  /** The events that can happen next, when no client lags its clock by more than `delay`. */
  predicate Enabled(s: State, e: Event, delay: real) {
    match e
    case Tick(t) => t >= s.clock
    case Pipeline(m, now) =>
      && m !in s.zset && m !in s.admitted && m !in s.doomed
      && now >= 0.0 && s.clock - delay <= now <= s.clock
    case Zrem(m) => m in s.doomed
    case Expire => s.expireAt.Some? && s.expireAt.value <= s.clock
  }

  /** The server's `ZREMRANGEBYSCORE`: the members outside [lo, hi] stay. */
  function RemoveByScore(zset: map<Member, real>, lo: real, hi: real): map<Member, real> {
    map x | x in zset && !(lo <= zset[x] <= hi) :: zset[x]
  }

  /** The sorted set after the pipeline's `zremrangebyscore` and `zadd`. */
  function Piped(zset: map<Member, real>, m: Member, now: real, window: nat): map<Member, real> {
    RemoveByScore(zset, 0.0, now - window as real)[m := now]
  }

  function Next(s: State, e: Event, limit: int, window: nat): State {
    match e
    case Tick(t) => s.(clock := t)
    case Pipeline(m, now) =>
      var zset := Piped(s.zset, m, now, window);
      var s' := s.(zset := zset, expireAt := Some(s.clock + window as real));
      if |zset| > limit then s'.(doomed := s.doomed + {m}) else s'.(admitted := s.admitted[m := now])
    case Zrem(m) => s.(zset := s.zset - {m}, doomed := s.doomed - {m})
    case Expire => s.(zset := map[], expireAt := None)
  }

  predicate Possible(s: State, es: seq<Event>, limit: int, window: nat, delay: real)
    decreases es
  {
    es == [] || (Enabled(s, es[0], delay) && Possible(Next(s, es[0], limit, window), es[1..], limit, window, delay))
  }

  function Run(s: State, es: seq<Event>, limit: int, window: nat): State
    decreases es
  {
    if es == [] then s else Run(Next(s, es[0], limit, window), es[1..], limit, window)
  }

  datatype Verdict = Allowed(remaining: int) | Denied(retryAfter: int)

  /** One limiter key and its server. `Begin` is everything up to the awaited pipeline
      result, `Finish` the rest of the same hit. */
  class RedisRateLimiter {
    var zset: map<Member, real>
    var expireAt: Option<real>
    ghost var clock: real
    ghost var doomed: set<Member>
    ghost var admitted: map<Member, real>

    ghost function View(): State
      reads this
    {
      State(zset, expireAt, clock, doomed, admitted)
    }

    constructor ()
      ensures View() == EMPTY
    {
      zset, expireAt, clock, doomed, admitted := map[], None, 0.0, {}, map[];
    }

    method Begin(m: Member, now: real, serverTime: real, limit: int, window: nat) returns (count: nat)
      requires serverTime == clock
      modifies this
      ensures View() == Next(old(View()), Pipeline(m, now), limit, window)
      ensures count == |zset|
    {
      var windowStart := now - window as real;
      zset := RemoveByScore(zset, 0.0, windowStart);
      zset := zset[m := now];
      count := |zset|;
      expireAt := Some(serverTime + window as real);
      if count > limit {
        doomed := doomed + {m};
      } else {
        admitted := admitted[m := now];
      }
    }

    method Finish(m: Member, count: nat, limit: int, window: nat) returns (verdict: Verdict)
      modifies this
      ensures if count > limit then View() == Next(old(View()), Zrem(m), limit, window) && verdict == Denied(window)
              else View() == old(View()) && verdict == Allowed(limit - count)
    {
      if count > limit {
        zset := zset - {m};
        doomed := doomed - {m};
        return Denied(window);
      }
      verdict := Allowed(limit - count);
    }
  }

  // -------------------------------------------------------------------- laws

  /** The admitted hits with times in (t - span, t]. */
  function Within(admitted: map<Member, real>, span: real, t: real): set<Member> {
    set m | m in admitted && t - span < admitted[m] <= t
  }

  ghost predicate Inv(s: State, window: nat) {
    && (forall m | m in s.zset :: 0.0 <= s.zset[m] <= s.clock && (m in s.admitted || m in s.doomed))
    && (forall m | m in s.admitted :: 0.0 <= s.admitted[m] <= s.clock && m !in s.doomed)
    && (forall m | m in s.zset && m in s.admitted :: s.zset[m] == s.admitted[m])
    // an admitted hit leaves the set only once it is a whole window old
    && (forall m | m in s.admitted && m !in s.zset :: s.admitted[m] <= s.clock - window as real)
    && (s.zset != map[] ==> s.expireAt.Some?)
    && (s.expireAt.Some? ==> forall m | m in s.zset :: s.zset[m] + window as real <= s.expireAt.value)
  }

  lemma PipedFacts(zset: map<Member, real>, m: Member, now: real, window: nat, w: real)
    requires w == window as real && m !in zset && forall x | x in zset :: 0.0 <= zset[x]
    ensures var piped := Piped(zset, m, now, window);
      && (forall x :: x in piped <==> x == m || (x in zset && zset[x] > now - w))
      && (forall x | x in piped :: piped[x] == if x == m then now else zset[x])
  {
    var kept := RemoveByScore(zset, 0.0, now - window as real);
    assert forall x :: x in kept <==> x in zset && zset[x] > now - w;
  }

  lemma InvAfterHit(s: State, s': State, m: Member, now: real, window: nat, w: real)
    requires Inv(s, window) && w == window as real && 0.0 <= now <= s.clock == s'.clock
    requires m !in s.zset && m !in s.admitted && m !in s.doomed
    requires forall x :: x in s'.zset <==> x == m || (x in s.zset && s.zset[x] > now - w)
    requires forall x | x in s'.zset :: s'.zset[x] == if x == m then now else s.zset[x]
    requires s'.expireAt == Some(s.clock + w)
    requires (s'.doomed == s.doomed + {m} && s'.admitted == s.admitted)
      || (s'.doomed == s.doomed && s'.admitted == s.admitted[m := now])
    ensures Inv(s', window)
  {
  }

  lemma PipelineInv(s: State, m: Member, now: real, limit: int, window: nat, delay: real)
    requires Inv(s, window) && Enabled(s, Pipeline(m, now), delay)
    ensures Inv(Next(s, Pipeline(m, now), limit, window), window)
  {
    PipedFacts(s.zset, m, now, window, window as real);
    InvAfterHit(s, Next(s, Pipeline(m, now), limit, window), m, now, window, window as real);
  }

  lemma StepInv(s: State, e: Event, limit: int, window: nat, delay: real)
    requires Inv(s, window) && Enabled(s, e, delay)
    ensures Inv(Next(s, e, limit, window), window)
  {
    match e
    case Pipeline(m, now) => PipelineInv(s, m, now, limit, window, delay);
    case Tick(_) =>
    case Zrem(_) =>
    case Expire =>
  }

  ghost predicate Bounded(s: State, limit: nat, span: real) {
    forall t: real :: |Within(s.admitted, span, t)| <= limit
  }

  lemma SubsetSize(a: set<Member>, b: set<Member>)
    requires a <= b
    ensures |a| <= |b|
  {
    assert b == a + (b - a);
  }

  /** An admitted pipeline counted every hit that shares a shortened window with it. */
  lemma SharedWindow(s: State, m: Member, now: real, window: nat, delay: real, t: real)
    requires Inv(s, window) && Enabled(s, Pipeline(m, now), delay)
    requires t - (window as real - delay) < now <= t
    ensures Within(s.admitted[m := now], window as real - delay, t) <= Piped(s.zset, m, now, window).Keys
  {
    var w := window as real;
    PipedFacts(s.zset, m, now, window, w);
    forall x | x in Within(s.admitted[m := now], w - delay, t) && x != m
      ensures x in Piped(s.zset, m, now, window) {
      assert s.admitted[x] > s.clock - w;
    }
  }

  lemma PipelineBoundedAt(s: State, m: Member, now: real, limit: nat, window: nat, delay: real, t: real)
    requires Inv(s, window) && Enabled(s, Pipeline(m, now), delay) && |Piped(s.zset, m, now, window)| <= limit
    requires |Within(s.admitted, window as real - delay, t)| <= limit
    ensures |Within(s.admitted[m := now], window as real - delay, t)| <= limit
  {
    var span := window as real - delay;
    var piped := Piped(s.zset, m, now, window);
    if t - span < now <= t {
      SharedWindow(s, m, now, window, delay, t);
      SubsetSize(Within(s.admitted[m := now], span, t), piped.Keys);
      assert |piped| == |piped.Keys|;
    } else {
      assert Within(s.admitted[m := now], span, t) == Within(s.admitted, span, t);
    }
  }

  lemma PipelineBounded(s: State, m: Member, now: real, limit: nat, window: nat, delay: real)
    requires Inv(s, window) && Enabled(s, Pipeline(m, now), delay) && Bounded(s, limit, window as real - delay)
    ensures Bounded(Next(s, Pipeline(m, now), limit, window), limit, window as real - delay)
  {
    var span, s' := window as real - delay, Next(s, Pipeline(m, now), limit, window);
    if |Piped(s.zset, m, now, window)| <= limit {
      forall t: real ensures |Within(s'.admitted, span, t)| <= limit {
        PipelineBoundedAt(s, m, now, limit, window, delay, t);
      }
    } else {
      assert s'.admitted == s.admitted;
    }
  }

  lemma {:induction false} RunBounded(s: State, es: seq<Event>, limit: nat, window: nat, delay: real)
    requires Inv(s, window) && Possible(s, es, limit, window, delay) && Bounded(s, limit, window as real - delay)
    ensures Bounded(Run(s, es, limit, window), limit, window as real - delay)
    decreases es
  {
    if es == [] {
    } else {
      var s' := Next(s, es[0], limit, window);
      StepInv(s, es[0], limit, window, delay);
      if es[0].Pipeline? {
        PipelineBounded(s, es[0].member, es[0].now, limit, window, delay);
      } else {
        assert s'.admitted == s.admitted;
      }
      RunBounded(s', es[1..], limit, window, delay);
    }
  }

  /** In every interleaving, with removals late or missing and the key expiring: no
      interval (t-w+delay, t] holds more than `limit` admitted hits. When the pipeline
      runs at the time its client read, `delay` is 0 and the interval is the full
      window (t-w, t]. */
  lemma AtMostLimit(es: seq<Event>, limit: nat, window: nat, delay: real, t: real)
    requires Possible(EMPTY, es, limit, window, delay)
    ensures |Within(Run(EMPTY, es, limit, window).admitted, window as real - delay, t)| <= limit
  {
    var span := window as real - delay;
    assert forall t: real :: Within(EMPTY.admitted, span, t) == {};
    RunBounded(EMPTY, es, limit, window, delay);
  }

  /** Rejected members still in the set that the window ending at `now` would count. */
  function Lingering(s: State, window: nat, now: real): set<Member> {
    set m | m in s.doomed && m in s.zset && s.zset[m] > now - window as real
  }

  lemma CountedMembers(s: State, m: Member, window: nat)
    requires Inv(s, window) && Enabled(s, Pipeline(m, s.clock), 0.0)
    ensures var counted, lingering := Within(s.admitted, window as real, s.clock), Lingering(s, window, s.clock);
      && Piped(s.zset, m, s.clock, window).Keys == counted + lingering + {m}
      && counted !! lingering && m !in counted && m !in lingering
  {
    PipedFacts(s.zset, m, s.clock, window, window as real);
  }

  lemma DisjointSize(a: set<Member>, b: set<Member>, m: Member)
    requires a !! b && m !in a && m !in b
    ensures |a + b + {m}| == |a| + |b| + 1
  {
  }

  /** The count that a hit reads, when its pipeline runs at the time read: the admitted hits
      of its window, the rejected ones not yet removed, and itself. What an
      allowance says remains is what the limit leaves beside them. */
  lemma CountIsExact(s: State, m: Member, limit: int, window: nat)
    requires Inv(s, window) && Enabled(s, Pipeline(m, s.clock), 0.0)
    ensures |Next(s, Pipeline(m, s.clock), limit, window).zset|
      == |Within(s.admitted, window as real, s.clock)| + |Lingering(s, window, s.clock)| + 1
  {
    var counted, lingering := Within(s.admitted, window as real, s.clock), Lingering(s, window, s.clock);
    CountedMembers(s, m, window);
    DisjointSize(counted, lingering, m);
    var piped := Piped(s.zset, m, s.clock, window);
    assert |piped| == |piped.Keys|;
  }

  /** So this decides a hit in any interleaving. */
  lemma ExactDecision(s: State, m: Member, limit: int, window: nat)
    requires Inv(s, window) && Enabled(s, Pipeline(m, s.clock), 0.0)
    ensures m in Next(s, Pipeline(m, s.clock), limit, window).admitted
      <==> |Within(s.admitted, window as real, s.clock)| + |Lingering(s, window, s.clock)| < limit
  {
    CountIsExact(s, m, limit, window);
  }

  /** While no other hit comes, the server drops the key once a window has passed on its own
      clock since the pipeline ran, and not before. */
  lemma {:induction false} KeyExpires(s: State, es: seq<Event>, end: real, limit: int, window: nat, delay: real)
    requires Possible(s, es, limit, window, delay) && s.expireAt == Some(end)
    requires forall e | e in es :: !e.Pipeline? && !e.Expire?
    ensures var s' := Run(s, es, limit, window);
      Enabled(s', Expire, delay) <==> s'.clock >= end
    decreases es
  {
    if es == [] {
    } else {
      assert es[0] in es;
      KeyExpires(Next(s, es[0], limit, window), es[1..], end, limit, window, delay);
    }
  }

  lemma KeyLivesAWindow(s: State, m: Member, now: real, es: seq<Event>, limit: int, window: nat, delay: real)
    requires Enabled(s, Pipeline(m, now), delay)
    requires Possible(Next(s, Pipeline(m, now), limit, window), es, limit, window, delay)
    requires forall e | e in es :: !e.Pipeline? && !e.Expire?
    ensures var s' := Run(Next(s, Pipeline(m, now), limit, window), es, limit, window);
      Enabled(s', Expire, delay) <==> s'.clock >= s.clock + window as real
  {
    KeyExpires(Next(s, Pipeline(m, now), limit, window), es, s.clock + window as real, limit, window, delay);
  }

  /** Events of a run in which no step falls between a pipeline and its removal. */
  datatype Calm = Wait(clock: real) | Hit(member: Member) | Lapse

  function CalmEvents(s: State, c: Calm, limit: int, window: nat): seq<Event> {
    match c
    case Wait(t) => [Tick(t)]
    case Lapse => [Expire]
    case Hit(m) =>
      var pipeline := Pipeline(m, s.clock);
      if m in Next(s, pipeline, limit, window).doomed then [pipeline, Zrem(m)] else [pipeline]
  }

  function CalmNext(s: State, c: Calm, limit: int, window: nat): State {
    Run(s, CalmEvents(s, c, limit, window), limit, window)
  }

  predicate CalmPossible(s: State, cs: seq<Calm>, limit: int, window: nat)
    decreases cs
  {
    cs == [] ||
    (Possible(s, CalmEvents(s, cs[0], limit, window), limit, window, 0.0)
     && CalmPossible(CalmNext(s, cs[0], limit, window), cs[1..], limit, window))
  }

  function CalmRun(s: State, cs: seq<Calm>, limit: int, window: nat): State
    decreases cs
  {
    if cs == [] then s else CalmRun(CalmNext(s, cs[0], limit, window), cs[1..], limit, window)
  }

  lemma CalmStep(s: State, c: Calm, limit: int, window: nat)
    requires Inv(s, window) && s.doomed == {}
    requires Possible(s, CalmEvents(s, c, limit, window), limit, window, 0.0)
    ensures Inv(CalmNext(s, c, limit, window), window) && CalmNext(s, c, limit, window).doomed == {}
  {
    var es := CalmEvents(s, c, limit, window);
    var s1 := Next(s, es[0], limit, window);
    StepInv(s, es[0], limit, window, 0.0);
    assert Run(s1, [], limit, window) == s1;
    if |es| == 2 {
      assert es[1..] == [es[1]];
      StepInv(s1, es[1], limit, window, 0.0);
      var s2 := Next(s1, es[1], limit, window);
      assert Run(s1, [es[1]], limit, window) == Run(s2, [], limit, window) == s2;
    } else {
      assert es[1..] == [];
    }
  }

  lemma {:induction false} CalmRunInv(s: State, cs: seq<Calm>, limit: int, window: nat)
    requires Inv(s, window) && s.doomed == {} && CalmPossible(s, cs, limit, window)
    ensures Inv(CalmRun(s, cs, limit, window), window) && CalmRun(s, cs, limit, window).doomed == {}
    decreases cs
  {
    if cs == [] {
    } else {
      CalmStep(s, cs[0], limit, window);
      CalmRunInv(CalmNext(s, cs[0], limit, window), cs[1..], limit, window);
    }
  }

  /** Without steps in between, a hit is admitted exactly when fewer than `limit`
      earlier admitted hits lie in its window. */
  lemma CalmHitsAreExact(cs: seq<Calm>, m: Member, limit: int, window: nat)
    requires CalmPossible(EMPTY, cs, limit, window)
    requires Enabled(CalmRun(EMPTY, cs, limit, window), Pipeline(m, CalmRun(EMPTY, cs, limit, window).clock), 0.0)
    ensures var s := CalmRun(EMPTY, cs, limit, window);
      m in CalmNext(s, Hit(m), limit, window).admitted <==> |Within(s.admitted, window as real, s.clock)| < limit
  {
    CalmRunInv(EMPTY, cs, limit, window);
    var s := CalmRun(EMPTY, cs, limit, window);
    ExactDecision(s, m, limit, window);
    assert Lingering(s, window, s.clock) == {};
    var es := CalmEvents(s, Hit(m), limit, window);
    var s1 := Next(s, es[0], limit, window);
    assert Run(s1, [], limit, window) == s1;
    if |es| == 2 {
      assert es[1..] == [es[1]] && [es[1]][1..] == [];
      var s2 := Next(s1, es[1], limit, window);
      assert s2.admitted == s1.admitted && Run(s1, [es[1]], limit, window) == Run(s2, [], limit, window) == s2;
    } else {
      assert es[1..] == [];
    }
  }

  // ------------------------------------------------- the longest bounded span

  /** A clock that lags by `delay` shortens the window by as much, down to nothing. */
  function Longest(window: nat, delay: real): real {
    if delay <= window as real then window as real - delay else 0.0
  }

  ghost predicate RunKeeps(es: seq<Event>, limit: nat, window: nat, span: real, t: real) {
    |Within(Run(EMPTY, es, limit, window).admitted, span, t)| <= limit
  }

  /** The first `n` members, all with one time. */
  function At(n: nat, time: real): (hits: map<Member, real>)
    ensures forall m: Member :: m in hits <==> m < n
    ensures forall m | m in hits :: hits[m] == time
  {
    if n == 0 then map[] else At(n - 1, time)[n - 1 := time]
  }

  lemma {:induction false} AtSize(n: nat, time: real)
    ensures |At(n, time)| == |At(n, time).Keys| == n
  {
    if n == 0 {
    } else {
      AtSize(n - 1, time);
      assert At(n, time).Keys == At(n - 1, time).Keys + {n - 1};
    }
  }

  /** `n` hits at time 0. A window of zero seconds keeps none but the last. */
  function AfterHits(n: nat, window: nat): State {
    var zset := if window > 0 then At(n, 0.0) else if n == 0 then map[] else map[n - 1 := 0.0];
    State(zset, if n == 0 then None else Some(window as real), 0.0, {}, At(n, 0.0))
  }

  function Hits(n: nat): seq<Event> {
    if n == 0 then [] else Hits(n - 1) + [Pipeline(n - 1, 0.0)]
  }

  lemma OneHit(n: nat, limit: nat, window: nat, delay: real)
    requires n < limit && delay >= 0.0
    ensures Enabled(AfterHits(n, window), Pipeline(n, 0.0), delay)
    ensures Next(AfterHits(n, window), Pipeline(n, 0.0), limit, window) == AfterHits(n + 1, window)
  {
    AtSize(n, 0.0);
    AtSize(n + 1, 0.0);
    var zset := AfterHits(n, window).zset;
    var kept := RemoveByScore(zset, 0.0, 0.0 - window as real);
    if window > 0 {
      assert kept == zset;
    } else {
      assert kept == map[];
    }
  }

  predicate Reaches(es: seq<Event>, s: State, limit: int, window: nat, delay: real) {
    Possible(EMPTY, es, limit, window, delay) && Run(EMPTY, es, limit, window) == s
  }

  lemma Extends(es: seq<Event>, s: State, e: Event, limit: int, window: nat, delay: real)
    requires Reaches(es, s, limit, window, delay) && Enabled(s, e, delay)
    ensures Reaches(es + [e], Next(s, e, limit, window), limit, window, delay)
  {
    RunAppend(EMPTY, es, e, limit, window, delay);
  }

  lemma {:induction false} RunAppend(s: State, es: seq<Event>, e: Event, limit: int, window: nat, delay: real)
    requires Possible(s, es, limit, window, delay) && Enabled(Run(s, es, limit, window), e, delay)
    ensures Possible(s, es + [e], limit, window, delay)
    ensures Run(s, es + [e], limit, window) == Next(Run(s, es, limit, window), e, limit, window)
    decreases es
  {
    if es == [] {
      assert Run(Next(s, e, limit, window), [], limit, window) == Next(s, e, limit, window);
    } else {
      assert (es + [e])[1..] == es[1..] + [e];
      RunAppend(Next(s, es[0], limit, window), es[1..], e, limit, window, delay);
    }
  }

  lemma {:induction false} RunHits(n: nat, limit: nat, window: nat, delay: real)
    requires n <= limit && delay >= 0.0
    ensures Reaches(Hits(n), AfterHits(n, window), limit, window, delay)
  {
    if n == 0 {
    } else {
      RunHits(n - 1, limit, window, delay);
      HitsStep(n - 1, Hits(n - 1), limit, window, delay);
    }
  }

  lemma HitsStep(n: nat, es: seq<Event>, limit: nat, window: nat, delay: real)
    requires n < limit && delay >= 0.0 && Reaches(es, AfterHits(n, window), limit, window, delay)
    ensures Reaches(es + [Pipeline(n, 0.0)], AfterHits(n + 1, window), limit, window, delay)
  {
    OneHit(n, limit, window, delay);
    Extends(es, AfterHits(n, window), Pipeline(n, 0.0), limit, window, delay);
  }

  /** The limit is reached at time 0, the key expires, and a client that read its clock
      `delay` ago finds the set empty. */
  function LateRun(limit: nat, window: nat, delay: real): seq<Event> {
    Hits(limit) + [Tick(window as real)] + [Expire] + [Pipeline(limit, Longest(window, delay))]
  }

  lemma LateHit(limit: nat, window: nat, delay: real)
    requires limit >= 1 && delay >= 0.0
    ensures Possible(EMPTY, LateRun(limit, window, delay), limit, window, delay)
    ensures Run(EMPTY, LateRun(limit, window, delay), limit, window).admitted
      == At(limit, 0.0)[limit := Longest(window, delay)]
  {
    var full, now := Hits(limit), Longest(window, delay);
    var s1 := AfterHits(limit, window).(clock := window as real);
    var s2 := s1.(zset := map[], expireAt := None);
    RunHits(limit, limit, window, delay);
    Extends(full, AfterHits(limit, window), Tick(window as real), limit, window, delay);
    Extends(full + [Tick(window as real)], s1, Expire, limit, window, delay);
    Extends(full + [Tick(window as real)] + [Expire], s2, Pipeline(limit, now), limit, window, delay);
    assert Piped(map[], limit, now, window) == map[limit := now];
  }

  lemma LateHitsCount(limit: nat, late: real, span: real)
    requires 0.0 <= late < span
    ensures |Within(At(limit, 0.0)[limit := late], span, late)| == limit + 1
  {
    AtSize(limit, 0.0);
    assert Within(At(limit, 0.0)[limit := late], span, late) == At(limit, 0.0).Keys + {limit};
  }

  lemma KeepsLongest(es: seq<Event>, limit: nat, window: nat, delay: real, span: real, t: real)
    requires Possible(EMPTY, es, limit, window, delay) && span <= Longest(window, delay)
    ensures RunKeeps(es, limit, window, span, t)
  {
    var admitted := Run(EMPTY, es, limit, window).admitted;
    if delay <= window as real {
      AtMostLimit(es, limit, window, delay, t);
      SubsetSize(Within(admitted, span, t), Within(admitted, window as real - delay, t));
    } else {
      assert Within(admitted, span, t) == {};
    }
  }

  /** Exactly which intervals are bounded, when clients may lag by up to `delay`: those no
      longer than the window less the delay. In particular a positive window is bounded in
      full if and only if no client lags. */
  lemma LongestBoundedSpan(limit: nat, window: nat, delay: real, span: real)
    requires limit >= 1 && delay >= 0.0
    ensures span <= Longest(window, delay)
      <==> forall es, t: real | Possible(EMPTY, es, limit, window, delay) :: RunKeeps(es, limit, window, span, t)
  {
    if span <= Longest(window, delay) {
      forall es, t: real | Possible(EMPTY, es, limit, window, delay) ensures RunKeeps(es, limit, window, span, t) {
        KeepsLongest(es, limit, window, delay, span, t);
      }
    } else {
      var es, late := LateRun(limit, window, delay), Longest(window, delay);
      LateHit(limit, window, delay);
      LateHitsCount(limit, late, span);
      assert !RunKeeps(es, limit, window, span, late);
    }
  }
}
