/** What a filter keeps of a list: which elements, in which order, and what becomes of them. */
module Selections {
  /** Positions in increasing order. */
  predicate Increasing(at: seq<nat>, n: nat) {
    (forall k | 0 <= k < |at| :: at[k] < n) && forall k, m | 0 <= k < m < |at| :: at[k] < at[m]
  }

  lemma IncreasingAppend(at: seq<nat>, n: nat)
    requires Increasing(at, n)
    ensures Increasing(at, n + 1) && Increasing(at + [n], n + 1)
  {
  }

  /** `us` are, in order, the images of the elements to keep. */
  ghost predicate Selected<T, U>(xs: seq<T>, keep: T -> bool, f: T -> U, us: seq<U>, at: seq<nat>) {
    && Increasing(at, |xs|) && |us| == |at|
    && (forall i: nat | i < |xs| :: i in at <==> keep(xs[i]))
    && (forall k | 0 <= k < |at| :: us[k] == f(xs[at[k]]))
  }

  lemma SelectedNext<T, U>(xs: seq<T>, x: T, keep: T -> bool, f: T -> U, us: seq<U>, at: seq<nat>)
    requires Selected(xs, keep, f, us, at)
    ensures if keep(x) then Selected(xs + [x], keep, f, us + [f(x)], at + [|xs|])
            else Selected(xs + [x], keep, f, us, at)
  {
    var n := |xs|;
    IncreasingAppend(at, n);
    assert n !in at;
    if keep(x) {
      assert forall i: nat | i <= n :: i in at + [n] <==> i in at || i == n;
    }
  }

  /** What is kept as it is. */
  function Same<T>(x: T): T {
    x
  }
}
