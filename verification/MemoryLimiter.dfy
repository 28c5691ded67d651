/** The in-memory sliding-window limiter, against counting the admitted hits. */
module MemoryLimiter {
  import opened Common

  datatype Verdict =
    | Allowed(remaining: int)
    | Denied(retryAfter: int)
    | IndexError           // limit <= 0 and nothing left in the bucket

  /** Truncation toward zero. */
  function Trunc(x: real): int {
    if x >= 0.0 then x.Floor else -((-x).Floor)
  }

  /** Drops the hits before `start` from the front. */
  function Prune(bucket: seq<real>, start: real): seq<real> {
    if bucket != [] && bucket[0] < start then Prune(bucket[1..], start) else bucket
  }

  /** The bucket after a hit. */
  function HitBucket(bucket: seq<real>, now: real, limit: int, window: int): seq<real> {
    var kept := Prune(bucket, now - window as real);
    if |kept| >= limit then kept else kept + [now]
  }

  /** The answer to a hit. */
  function HitVerdict(bucket: seq<real>, now: real, limit: int, window: int): Verdict {
    var kept := Prune(bucket, now - window as real);
    if |kept| < limit then Allowed(limit - |kept| - 1)
    else if kept == [] then IndexError
    else Denied(RetryAfter(kept[0], now, window as real))
  }

  /** The wait for the oldest hit that is kept to leave the window. */
  function RetryAfter(first: real, now: real, window: real): int {
    Max(Trunc(first + window - now) + 1, 1)
  }

  class InMemoryRateLimiter {
    var hits: map<string, seq<real>>

    constructor ()
      ensures hits == map[]
    {
      hits := map[];
    }

    /** `now` is the reading of the monotonic clock. */
    method Hit(key: string, limit: int, window: int, now: real) returns (verdict: Verdict)
      modifies this
      ensures var bucket := if key in old(hits) then old(hits)[key] else [];
        && hits == old(hits)[key := HitBucket(bucket, now, limit, window)]
        && verdict == HitVerdict(bucket, now, limit, window)
    {
      var windowStart := now - window as real;
      var bucket := if key in hits then hits[key] else [];
      ghost var all := bucket;
      while bucket != [] && bucket[0] < windowStart
        invariant Prune(bucket, windowStart) == Prune(all, windowStart)
        decreases |bucket|
      {
        bucket := bucket[1..];
      }
      hits := hits[key := bucket];
      if |bucket| >= limit {
        if bucket == [] {
          return IndexError;
        }
        var retryAfter := Trunc(bucket[0] + window as real - now) + 1;
        return Denied(Max(retryAfter, 1));
      }
      bucket := bucket + [now];
      hits := hits[key := bucket];
      verdict := Allowed(limit - |bucket|);
      assert hits == old(hits)[key := bucket];
    }
  }

  // -------------------------------------------------------- the specification

  /** How many of `ts` lie in the closed interval [lo, hi]. */
  function Count(ts: seq<real>, lo: real, hi: real): nat {
    if ts == [] then 0
    else Count(ts[..|ts| - 1], lo, hi) + if lo <= ts[|ts| - 1] <= hi then 1 else 0
  }

  /** One hit decided by counting. */
  function Counted(earlier: seq<real>, now: real, limit: int, window: int): seq<real> {
    if Count(earlier, now - window as real, now) < limit then earlier + [now] else earlier
  }

  /** The admitted hits when each hit is decided by counting the earlier admitted
      ones in the window that ends at it. */
  function Admitted(times: seq<real>, limit: int, window: int): seq<real> {
    if times == [] then [] else
      Counted(Admitted(times[..|times| - 1], limit, window), times[|times| - 1], limit, window)
  }

  /** The bucket after the limiter has seen the hits. */
  function Bucket(times: seq<real>, limit: int, window: int): seq<real> {
    if times == [] then []
    else HitBucket(Bucket(times[..|times| - 1], limit, window), times[|times| - 1], limit, window)
  }

  predicate Sorted(ts: seq<real>) {
    forall i, j | 0 <= i < j < |ts| :: ts[i] <= ts[j]
  }

  predicate Nondecreasing(times: seq<real>)
    decreases |times|, 0
  {
    times == [] || Follows(times[..|times| - 1], times[|times| - 1])
  }

  /** The clock does not go back. */
  predicate Follows(times: seq<real>, now: real)
    decreases |times|, 1
  {
    Nondecreasing(times) && (times != [] ==> times[|times| - 1] <= now)
  }

  predicate UpTo(ts: seq<real>, hi: real) {
    forall i | 0 <= i < |ts| :: ts[i] <= hi
  }

  // -------------------------------------------------------------------- laws

  lemma {:induction false} PruneSuffix(ts: seq<real>, s: real)
    ensures |Prune(ts, s)| <= |ts|
    ensures var k := |ts| - |Prune(ts, s)|;
      && Prune(ts, s) == ts[k..]
      && (forall i | 0 <= i < k :: ts[i] < s)
      && (k < |ts| ==> ts[k] >= s)
  {
    if ts != [] && ts[0] < s {
      PruneSuffix(ts[1..], s);
      var k := |ts| - |Prune(ts, s)|;
      assert ts[1..][k - 1..] == ts[k..];
    }
  }

  lemma {:induction false} PruneTwice(ts: seq<real>, s: real, s': real)
    requires s <= s'
    ensures Prune(Prune(ts, s), s') == Prune(ts, s')
  {
    if ts != [] && ts[0] < s {
      PruneTwice(ts[1..], s, s');
    }
  }

  lemma {:induction false} CountFrom(ts: seq<real>, lo: real, hi: real, k: nat)
    requires k <= |ts|
    requires forall i | 0 <= i < k :: ts[i] < lo
    requires forall i | k <= i < |ts| :: lo <= ts[i] <= hi
    ensures Count(ts, lo, hi) == |ts| - k
  {
    if ts == [] {
    } else {
      CountFrom(ts[..|ts| - 1], lo, hi, if k == |ts| then k - 1 else k);
    }
  }

  /** For a sorted list the pruned length is the count. */
  lemma CountIsPrunedLength(ts: seq<real>, lo: real, hi: real)
    requires Sorted(ts) && UpTo(ts, hi)
    ensures Count(ts, lo, hi) == |Prune(ts, lo)|
  {
    PruneSuffix(ts, lo);
    CountFrom(ts, lo, hi, |ts| - |Prune(ts, lo)|);
  }

  lemma PruneAppend(ts: seq<real>, s: real, t: real)
    requires t >= s
    ensures Prune(ts + [t], s) == Prune(ts, s) + [t]
    decreases ts
  {
    if ts != [] && ts[0] < s {
      assert (ts + [t])[1..] == ts[1..] + [t];
      PruneAppend(ts[1..], s, t);
    }
  }

  lemma {:induction false} AdmittedUpTo(times: seq<real>, now: real, limit: int, window: int)
    requires Follows(times, now)
    ensures UpTo(Admitted(times, limit, window), now)
  {
    if times == [] {
    } else {
      AdmittedUpTo(times[..|times| - 1], times[|times| - 1], limit, window);
    }
  }

  lemma CountedSorted(earlier: seq<real>, now: real, limit: int, window: int)
    requires Sorted(earlier) && UpTo(earlier, now)
    ensures Sorted(Counted(earlier, now, limit, window))
  {
  }

  lemma {:induction false} AdmittedSorted(times: seq<real>, limit: int, window: int)
    requires Nondecreasing(times)
    ensures Sorted(Admitted(times, limit, window))
  {
    if times == [] {
    } else {
      var prior, now := times[..|times| - 1], times[|times| - 1];
      AdmittedSorted(prior, limit, window);
      AdmittedUpTo(prior, now, limit, window);
      CountedSorted(Admitted(prior, limit, window), now, limit, window);
    }
  }

  /** One hit: what is kept of a bucket that holds a window holds the next window. */
  lemma HitKeepsWindow(bucket: seq<real>, earlier: seq<real>, now: real, limit: int, window: nat)
    requires Sorted(earlier) && UpTo(earlier, now) && limit >= 1
    requires Prune(bucket, now - window as real) == Prune(earlier, now - window as real)
    ensures HitBucket(bucket, now, limit, window) == Prune(Counted(earlier, now, limit, window), now - window as real)
  {
    var start := now - window as real;
    CountIsPrunedLength(earlier, start, now);
    PruneAppend(earlier, start, now);
  }

  lemma BucketIsShort(bucket: seq<real>, now: real, limit: int, window: int)
    requires limit >= 1 && |bucket| <= limit
    ensures |HitBucket(bucket, now, limit, window)| <= limit
  {
    PruneSuffix(bucket, now - window as real);
  }

  lemma {:induction false} BucketWithinLimit(times: seq<real>, limit: int, window: int)
    requires limit >= 1
    ensures |Bucket(times, limit, window)| <= limit
  {
    if times == [] {
    } else {
      BucketWithinLimit(times[..|times| - 1], limit, window);
      BucketIsShort(Bucket(times[..|times| - 1], limit, window), times[|times| - 1], limit, window);
    }
  }

  lemma BucketStep(times: seq<real>, limit: int, window: nat)
    requires Nondecreasing(times) && times != [] && limit >= 1
    requires var prior, start := times[..|times| - 1], times[|times| - 1] - window as real;
      Prune(Bucket(prior, limit, window), start) == Prune(Admitted(prior, limit, window), start)
    ensures Bucket(times, limit, window)
      == Prune(Admitted(times, limit, window), times[|times| - 1] - window as real)
  {
    var prior, last := times[..|times| - 1], times[|times| - 1];
    AdmittedUpTo(prior, last, limit, window);
    AdmittedSorted(prior, limit, window);
    var bucket, earlier := Bucket(prior, limit, window), Admitted(prior, limit, window);
    HitKeepsWindow(bucket, earlier, last, limit, window);
  }

  /** The bucket is the part of the admitted hits that the last hit's window still holds. */
  lemma {:induction false} BucketIsWindow(times: seq<real>, now: real, limit: int, window: nat)
    requires Follows(times, now) && limit >= 1
    ensures Prune(Bucket(times, limit, window), now - window as real)
      == Prune(Admitted(times, limit, window), now - window as real)
    ensures times != [] && now == times[|times| - 1] ==>
      Bucket(times, limit, window) == Prune(Admitted(times, limit, window), now - window as real)
  {
    if times == [] {
    } else {
      var last := times[|times| - 1];
      BucketIsWindow(times[..|times| - 1], last, limit, window);
      BucketStep(times, limit, window);
      PruneTwice(Admitted(times, limit, window), last - window as real, now - window as real);
    }
  }

  /** With a negative window nothing is ever kept. */
  lemma {:induction false} BucketIsLast(times: seq<real>, limit: int, window: int)
    requires Nondecreasing(times) && limit >= 1 && times != [] && window < 0
    ensures Bucket(times, limit, window) == [times[|times| - 1]]
  {
    var n, now := |times| - 1, times[|times| - 1];
    if n == 0 {
    } else {
      BucketIsLast(times[..n], limit, window);
      AllPruned([times[n - 1]], times[n - 1], now - window as real);
    }
  }

  lemma AllPruned(ts: seq<real>, hi: real, start: real)
    requires UpTo(ts, hi) && hi < start
    ensures Prune(ts, start) == []
  {
    PruneSuffix(ts, start);
  }

  /** What pruning leaves of the bucket is what pruning leaves of the admitted hits. */
  lemma KeptIsPrunedAdmitted(times: seq<real>, now: real, limit: int, window: int)
    requires Follows(times, now) && times != [] && limit >= 1
    ensures Prune(Bucket(times, limit, window), now - window as real)
      == Prune(Admitted(times, limit, window), now - window as real)
  {
    var start, last := now - window as real, times[|times| - 1];
    var adm := Admitted(times, limit, window);
    if window >= 0 {
      BucketIsWindow(times, now, limit, window);
    } else {
      BucketIsLast(times, limit, window);
      AdmittedUpTo(times, last, limit, window);
      AllPruned(adm, last, start);
      AllPruned([last], last, start);
    }
  }

  /** What pruning leaves of the bucket is what counting finds. */
  lemma KeptIsCount(times: seq<real>, now: real, limit: int, window: int)
    requires Follows(times, now) && limit >= 1
    ensures var kept := Prune(Bucket(times, limit, window), now - window as real);
      && |kept| == Count(Admitted(times, limit, window), now - window as real, now)
      && |kept| <= limit
  {
    var start := now - window as real;
    AdmittedUpTo(times, now, limit, window);
    AdmittedSorted(times, limit, window);
    CountIsPrunedLength(Admitted(times, limit, window), start, now);
    if times != [] {
      KeptIsPrunedAdmitted(times, now, limit, window);
    }
    BucketWithinLimit(times, limit, window);
    PruneSuffix(Bucket(times, limit, window), start);
  }

  lemma BucketSorted(times: seq<real>, limit: int, window: int)
    requires Nondecreasing(times) && limit >= 1
    ensures Sorted(Bucket(times, limit, window))
  {
    if times != [] && window >= 0 {
      BucketIsWindow(times, times[|times| - 1], limit, window);
      AdmittedSorted(times, limit, window);
      PruneSuffix(Admitted(times, limit, window), times[|times| - 1] - window as real);
    } else if times != [] {
      BucketIsLast(times, limit, window);
    }
  }

  /** The limiter refines the counting rule: for nondecreasing hit times it allows the
      next hit exactly when fewer than `limit` admitted hits lie in its window, and
      its bucket stays sorted. */
  lemma RefinesCounting(times: seq<real>, now: real, limit: int, window: int)
    requires Follows(times, now) && limit >= 1
    ensures HitVerdict(Bucket(times, limit, window), now, limit, window).Allowed?
      <==> Count(Admitted(times, limit, window), now - window as real, now) < limit
    ensures !HitVerdict(Bucket(times, limit, window), now, limit, window).IndexError?
    ensures Sorted(Bucket(times, limit, window))
  {
    KeptIsCount(times, now, limit, window);
    BucketSorted(times, limit, window);
  }

  /** What an allowance says remains: the limit less the admitted hits in the window, this one
      included. */
  lemma RemainingIsLeft(times: seq<real>, now: real, limit: int, window: int)
    requires Follows(times, now) && limit >= 1
    ensures var verdict := HitVerdict(Bucket(times, limit, window), now, limit, window);
      var counted := Count(Admitted(times, limit, window), now - window as real, now);
      verdict.Allowed? ==> verdict.remaining == limit - (counted + 1) >= 0
  {
    KeptIsCount(times, now, limit, window);
  }

  /** A limit of zero or less admits nothing: every hit fails on the empty bucket. */
  lemma {:induction false} NoLimitRaises(times: seq<real>, now: real, limit: int, window: int)
    requires limit <= 0
    ensures Bucket(times, limit, window) == [] && Admitted(times, limit, window) == []
    ensures HitVerdict(Bucket(times, limit, window), now, limit, window) == IndexError
  {
    if times == [] {
    } else {
      NoLimitRaises(times[..|times| - 1], times[|times| - 1], limit, window);
    }
  }

  lemma {:induction false} CountMonotone(ts: seq<real>, lo: real, hi: real, lo': real, hi': real)
    requires forall i | 0 <= i < |ts| && lo <= ts[i] <= hi :: lo' <= ts[i] <= hi'
    ensures Count(ts, lo, hi) <= Count(ts, lo', hi')
  {
    if ts == [] {
    } else {
      CountMonotone(ts[..|ts| - 1], lo, hi, lo', hi');
    }
  }

  /** Admitting one hit keeps every window within the limit. */
  lemma HitBound(earlier: seq<real>, now: real, limit: int, window: int, w: real, x: real)
    requires w == window as real && UpTo(earlier, now) && limit >= 1 && Count(earlier, x, x + w) <= limit
    ensures Count(Counted(earlier, now, limit, window), x, x + w) <= limit
  {
    if x <= now <= x + w {
      CountMonotone(earlier, x, x + w, now - w, now);
    }
    assert (earlier + [now])[..|earlier|] == earlier;
  }

  /** No closed interval of the window's length holds more than `limit` admitted hits. */
  lemma {:induction false} WindowBound(times: seq<real>, limit: int, window: int, x: real)
    requires Nondecreasing(times) && limit >= 1
    ensures Count(Admitted(times, limit, window), x, x + window as real) <= limit
  {
    if times == [] {
    } else {
      var prior, now := times[..|times| - 1], times[|times| - 1];
      WindowBound(prior, limit, window, x);
      AdmittedUpTo(prior, now, limit, window);
      HitBound(Admitted(prior, limit, window), now, limit, window, window as real, x);
    }
  }

  /** `retryAfter` is the least whole number of seconds after which a hit, with none
      in between, is allowed. */
  lemma RetryAfterIsLeast(times: seq<real>, now: real, limit: int, window: int, n: nat)
    requires Follows(times, now) && limit >= 1
    requires HitVerdict(Bucket(times, limit, window), now, limit, window).Denied?
    ensures var bucket := Bucket(times, limit, window);
      HitVerdict(HitBucket(bucket, now, limit, window), now + n as real, limit, window).Allowed?
      <==> n >= HitVerdict(bucket, now, limit, window).retryAfter
  {
    var bucket := Bucket(times, limit, window);
    KeptIsCount(times, now, limit, window);
    DeniedAfter(bucket, now, limit, window, window as real);
    var kept := Prune(bucket, now - window as real);
    NextHit(kept, now + n as real, limit, window, window as real);
  }

  lemma DeniedAfter(bucket: seq<real>, now: real, limit: int, window: int, w: real)
    requires w == window as real && limit >= 1 && |Prune(bucket, now - w)| <= limit
    requires HitVerdict(bucket, now, limit, window).Denied?
    ensures var kept := Prune(bucket, now - w);
      && |kept| == limit && kept[0] >= now - w && HitBucket(bucket, now, limit, window) == kept
      && HitVerdict(bucket, now, limit, window) == Denied(RetryAfter(kept[0], now, w))
  {
    PruneSuffix(bucket, now - w);
  }

  lemma NextHit(kept: seq<real>, later: real, limit: int, window: int, w: real)
    requires w == window as real && |kept| == limit && limit >= 1
    ensures HitVerdict(kept, later, limit, window).Allowed? <==> kept[0] + w < later
  {
    FirstDecides(kept, later - w);
  }

  /** Pruning shortens a bucket exactly when it drops the first hit. */
  lemma FirstDecides(kept: seq<real>, start: real)
    requires kept != []
    ensures |Prune(kept, start)| < |kept| <==> kept[0] < start
  {
    PruneSuffix(kept, start);
  }

}
