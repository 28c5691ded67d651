/** What every run of ledger calls keeps, whatever the calls are. */
module LedgerLaws {
  import opened Common
  import opened Ledger

  // ---------------------------------------------------------------- keys

  /** The key texts never collide: they differ in a prefix or in the id itself. */
  lemma RenderInjective(a: Key, b: Key)
    requires Render(a) == Render(b)
    ensures a == b
  {
    var s, t := Render(a), Render(b);
    assert s[0] == t[0] && s[2] == t[2];
    if a.RefundKey? || a.RefundDeleteKey? || a.ReserveKey? {
      assert s[6] == t[6];
    }
    var n := Prefix(a);
    assert Prefix(b) == n;
    assert s[n..] == t[n..];
    assert s[n..] == Id(a) && t[n..] == Id(b);
  }

  function Prefix(k: Key): (n: nat)
    ensures n <= |Render(k)|
  {
    match k
    case SignupKey(_) => 7
    case RefundKey(_) => 7
    case RefundDeleteKey(_) => 14
    case _ => 8
  }

  function Id(k: Key): string {
    match k
    case SignupKey(org) => org
    case PaymentKey(ref) => ref
    case _ => k.build
  }

  // ------------------------------------------------- the log decides the wallet

  /** One log row applied to a wallet. */
  function ApplyRow(w: Wallet, t: Txn): Wallet {
    match t.kind
    case GRANT => Wallet(w.balance + t.amount, w.reserved)
    case RESERVE => Wallet(w.balance + t.amount, w.reserved - t.amount)
    case CAPTURE => Wallet(w.balance, Max(0, w.reserved - Abs(t.amount)))
    case REFUND => Wallet(w.balance + t.amount, Max(0, w.reserved - Abs(t.amount)))
  }

  /** The wallet that the log alone says `org` has. */
  function Fold(txns: seq<Txn>, org: OrgId): Wallet {
    if txns == [] then Wallet(0, 0) else
      var t := txns[|txns| - 1];
      var w := Fold(txns[..|txns| - 1], org);
      if t.wallet == org then ApplyRow(w, t) else w
  }

  /** The sum of the amounts of an organization's rows of the given kinds. */
  function Total(txns: seq<Txn>, org: OrgId, kinds: set<Kind>): int {
    if txns == [] then 0 else
      var t := txns[|txns| - 1];
      Total(txns[..|txns| - 1], org, kinds) + if t.wallet == org && t.kind in kinds then t.amount else 0
  }

  predicate UniqueKeys(txns: seq<Txn>) {
    forall i, j :: 0 <= i < j < |txns| ==> txns[i].key != txns[j].key
  }

  /** Signs that the services give their rows. */
  predicate RowSigns(t: Txn) {
    && (t.kind == GRANT ==> t.amount > 0)
    && (t.kind == CAPTURE ==> t.amount <= 0)
    && (t.kind == REFUND ==> t.amount >= 0)
  }

  ghost predicate Consistent(s: State) {
    && UniqueKeys(s.txns)
    && (forall t | t in s.txns :: t.wallet in s.wallets && RowSigns(t))
    && (forall org :: Fold(s.txns, org) == WalletOf(s, org))
    && (forall org | org in s.wallets :: s.wallets[org].balance >= 0 && s.wallets[org].reserved >= 0)
  }

  function WalletOf(s: State, org: OrgId): Wallet {
    if org in s.wallets then s.wallets[org] else Wallet(0, 0)
  }

  /** A wallet is committed consistently when it is its row applied to the old one. */
  lemma CommitConsistent(s: State, w: Wallet, t: Txn)
    requires Consistent(s) && RowSigns(t) && w == ApplyRow(WalletOf(s, t.wallet), t)
    ensures Consistent(Commit(s, w, t).0)
  {
    var (s', o) := Commit(s, w, t);
    if o == Applied {
      assert s'.txns[..|s.txns|] == s.txns;
      assert forall org :: Fold(s'.txns, org) == WalletOf(s', org);
    }
  }

  lemma GrantsConsistent(s: State, org: OrgId, amount: int, key: Key)
    requires Consistent(s)
    ensures Consistent(SignupStep(s, org, amount, key).0) && Consistent(GrantStep(s, org, amount, key).0)
  {
    if amount > 0 {
      var w := WalletOf(s, org);
      CommitConsistent(s, Wallet(w.balance + amount, w.reserved), Txn(org, None, GRANT, amount, key));
    } else if org !in s.wallets {
      var s' := SignupStep(s, org, amount, key).0;
      assert forall o :: Fold(s'.txns, o) == WalletOf(s', o);
    }
  }

  lemma ReserveConsistent(s: State, org: OrgId, amount: int, b: BuildId, key: Key)
    requires Consistent(s)
    ensures Consistent(ReserveStep(s, org, amount, b, key).0)
  {
    var w := WalletOf(s, org);
    CommitConsistent(s, Wallet(w.balance - amount, w.reserved + amount), Txn(org, Some(b), RESERVE, -amount, key));
  }

  lemma CaptureConsistent(s: State, org: OrgId, b: BuildId, key: Key)
    requires Consistent(s)
    ensures Consistent(CaptureStep(s, org, b, key).0)
  {
    if |ReserveRows(s.txns, b)| <= 1 {
      var w, x := WalletOf(s, org), ReservedAmount(s.txns, b);
      CommitConsistent(s, Wallet(w.balance, Max(0, w.reserved - x)), Txn(org, Some(b), CAPTURE, -x, key));
    }
  }

  lemma RefundConsistent(s: State, org: OrgId, b: BuildId, key: Key)
    requires Consistent(s)
    ensures Consistent(RefundStep(s, org, b, key).0)
  {
    if |ReserveRows(s.txns, b)| <= 1 {
      var w, x := WalletOf(s, org), ReservedAmount(s.txns, b);
      CommitConsistent(s, Wallet(w.balance + x, Max(0, w.reserved - x)), Txn(org, Some(b), REFUND, x, key));
    }
  }

  lemma StepConsistent(s: State, c: Call)
    requires Consistent(s)
    ensures Consistent(Step(s, c).0)
  {
    match c
    case Signup(org, amount, key) => GrantsConsistent(s, org, amount, key);
    case Reserve(org, amount, b, key) => ReserveConsistent(s, org, amount, b, key);
    case Capture(org, b, key) => CaptureConsistent(s, org, b, key);
    case Refund(org, b, key) => RefundConsistent(s, org, b, key);
    case Grant(org, amount, key) => GrantsConsistent(s, org, amount, key);
  }

  /** In every reachable state the wallets are what replaying the log gives. */
  lemma {:induction false} WalletIsFoldOfLog(s: State, calls: seq<Call>)
    requires Consistent(s)
    ensures Consistent(Run(s, calls))
    decreases calls
  {
    if calls == [] {
    } else {
      StepConsistent(s, calls[0]);
      WalletIsFoldOfLog(Step(s, calls[0]).0, calls[1..]);
    }
  }

  lemma {:induction false} FoldBalance(txns: seq<Txn>, org: OrgId)
    ensures Fold(txns, org).balance == Total(txns, org, {GRANT, RESERVE, REFUND})
  {
    if txns == [] {
    } else {
      FoldBalance(txns[..|txns| - 1], org);
    }
  }

  /** From the empty database, after any calls: the balance is the sum of the
      GRANT, RESERVE and REFUND rows, and it is never negative. */
  lemma BalanceIsSumOfRows(calls: seq<Call>, org: OrgId)
    requires org in Run(EMPTY, calls).wallets
    ensures var s := Run(EMPTY, calls);
      && s.wallets[org].balance == Total(s.txns, org, {GRANT, RESERVE, REFUND})
      && s.wallets[org] == Fold(s.txns, org)
      && s.wallets[org].balance >= 0
      && s.wallets[org].reserved >= 0
  {
    WalletIsFoldOfLog(EMPTY, calls);
    FoldBalance(Run(EMPTY, calls).txns, org);
  }

  /** With non-negative amounts the schema's CHECK and UNIQUE constraints reject
      nothing the service let through, apart from a second wallet or a reused
      key at signup. */
  lemma ConstraintsNeverFire(s: State, c: Call)
    requires Consistent(s)
    requires c.Reserve? ==> c.amount >= 0
    ensures Step(s, c).1 == ConstraintViolated
      <==> c.Signup? && (c.org in s.wallets || (c.amount > 0 && HasKey(s.txns, c.key)))
  {
  }

  // ------------------------------------------------------------ reserve rows

  lemma ReserveRowsAppend(txns: seq<Txn>, t: Txn, b: BuildId)
    ensures ReserveRows(txns + [t], b) ==
      ReserveRows(txns, b) + if t.kind == RESERVE && t.build == Some(b) then [t] else []
  {
    assert (txns + [t])[..|txns|] == txns;
  }

  // ------------------------------------------------------------ conservation

  /** What the `max(0, ...)` clamps of the settlement rows swallowed so far. */
  function Shortfall(txns: seq<Txn>, org: OrgId): (n: nat) {
    if txns == [] then 0 else
      var t := txns[|txns| - 1];
      var prior := txns[..|txns| - 1];
      Shortfall(prior, org) +
      if t.wallet == org && t.kind in {CAPTURE, REFUND}
      then Max(0, Abs(t.amount) - Fold(prior, org).reserved) else 0
  }

  /** Every settlement row of `org` found at least its amount reserved. */
  predicate NoClamp(txns: seq<Txn>, org: OrgId) {
    forall i | 0 <= i < |txns| && txns[i].wallet == org && txns[i].kind in {CAPTURE, REFUND} ::
      Abs(txns[i].amount) <= Fold(txns[..i], org).reserved
  }

  ghost predicate ReservedStaysNonNegative(txns: seq<Txn>, org: OrgId) {
    forall i | 0 <= i <= |txns| :: Fold(txns[..i], org).reserved >= 0
  }

  lemma {:induction false} ShortfallIsSurplus(txns: seq<Txn>, org: OrgId)
    requires forall t | t in txns :: RowSigns(t)
    requires ReservedStaysNonNegative(txns, org)
    ensures var w := Fold(txns, org);
      w.balance + w.reserved - Total(txns, org, {CAPTURE}) == Total(txns, org, {GRANT}) + Shortfall(txns, org)
  {
    if txns == [] {
    } else {
      var prior := txns[..|txns| - 1];
      forall i | 0 <= i <= |prior| ensures Fold(prior[..i], org).reserved >= 0 {
        assert prior[..i] == txns[..i];
      }
      assert txns[..|txns| - 1] == prior && txns[|txns| - 1] in txns;
      assert forall t | t in prior :: t in txns;
      ShortfallIsSurplus(prior, org);
    }
  }

  lemma {:induction false} ShortfallZero(txns: seq<Txn>, org: OrgId)
    ensures Shortfall(txns, org) == 0 <==> NoClamp(txns, org)
  {
    if txns == [] {
    } else {
      var n := |txns| - 1;
      var prior := txns[..n];
      ShortfallZero(prior, org);
      assert forall i | 0 <= i < n :: prior[i] == txns[i] && prior[..i] == txns[..i];
    }
  }

  lemma {:induction false} PrefixReserved(calls: seq<Call>, s: State, org: OrgId)
    requires Consistent(s)
    requires ReservedStaysNonNegative(s.txns, org)
    ensures ReservedStaysNonNegative(Run(s, calls).txns, org)
  {
    if calls == [] {
    } else {
      StepReserved(s, calls[0], org);
      StepConsistent(s, calls[0]);
      PrefixReserved(calls[1..], Step(s, calls[0]).0, org);
    }
  }

  lemma StepAppends(s: State, c: Call)
    ensures var txns' := Step(s, c).0.txns;
      s.txns <= txns' && |txns'| <= |s.txns| + 1
  {
  }

  lemma AppendReserved(txns: seq<Txn>, txns': seq<Txn>, org: OrgId)
    requires ReservedStaysNonNegative(txns, org) && Fold(txns', org).reserved >= 0
    requires txns <= txns' && |txns'| <= |txns| + 1
    ensures ReservedStaysNonNegative(txns', org)
  {
    forall i | 0 <= i <= |txns'| ensures Fold(txns'[..i], org).reserved >= 0 {
      assert txns'[..i] == if i <= |txns| then txns[..i] else txns';
    }
  }

  lemma StepReserved(s: State, c: Call, org: OrgId)
    requires Consistent(s) && ReservedStaysNonNegative(s.txns, org)
    ensures ReservedStaysNonNegative(Step(s, c).0.txns, org)
  {
    StepConsistent(s, c);
    StepAppends(s, c);
    AppendReserved(s.txns, Step(s, c).0.txns, org);
  }

  /** Exactly when credits are conserved, for every sequence of calls:
      granted = balance + reserved + captured holds if and only if no settlement
      ever met fewer reserved credits than it was to release. What is broken
      otherwise is always in the organization's favour. */
  lemma ConservationExact(calls: seq<Call>, org: OrgId)
    requires org in Run(EMPTY, calls).wallets
    ensures var s := Run(EMPTY, calls);
      var granted := Total(s.txns, org, {GRANT});
      var held := s.wallets[org].balance + s.wallets[org].reserved - Total(s.txns, org, {CAPTURE});
      && granted <= held
      && (granted == held <==> NoClamp(s.txns, org))
  {
    var s := Run(EMPTY, calls);
    WalletIsFoldOfLog(EMPTY, calls);
    PrefixReserved(calls, EMPTY, org);
    ShortfallIsSurplus(s.txns, org);
    ShortfallZero(s.txns, org);
  }

  // ------------------------------------------------------------------ replay

  /** A call that the log already records, by its key, does nothing. */
  predicate Recorded(s: State, c: Call) {
    !c.Signup? && HasKey(s.txns, c.key)
  }

  /** The calls of a run that were not replays when they arrived. */
  function WithoutReplays(s: State, calls: seq<Call>): seq<Call>
    decreases calls
  {
    if calls == [] then []
    else
      var rest := WithoutReplays(Step(s, calls[0]).0, calls[1..]);
      if Recorded(s, calls[0]) then rest else [calls[0]] + rest
  }

  /** Replays, however many and wherever they are inserted, leave the final
      wallets and log as they would be without them. */
  lemma {:induction false} ReplaysAreInvisible(s: State, calls: seq<Call>)
    ensures Run(s, WithoutReplays(s, calls)) == Run(s, calls)
    decreases calls
  {
    if calls == [] {
    } else {
      var s' := Step(s, calls[0]).0;
      ReplaysAreInvisible(s', calls[1..]);
      if Recorded(s, calls[0]) {
        assert s' == s;
      } else {
        var rest := WithoutReplays(s', calls[1..]);
        assert ([calls[0]] + rest)[1..] == rest;
      }
    }
  }

  lemma {:induction false} KeysPersist(s: State, calls: seq<Call>, key: Key)
    requires HasKey(s.txns, key)
    ensures HasKey(Run(s, calls).txns, key)
    decreases calls
  {
    if calls == [] {
    } else {
      var s' := Step(s, calls[0]).0;
      var t :| t in s.txns && t.key == key;
      assert t in s'.txns;
      KeysPersist(s', calls[1..], key);
    }
  }

  lemma {:induction false} RunAppend(s: State, a: seq<Call>, b: seq<Call>)
    ensures Run(s, a + b) == Run(Run(s, a), b)
    decreases a
  {
    if a == [] {
      assert a + b == b;
    } else {
      assert (a + b)[1..] == a[1..] + b;
      RunAppend(Step(s, a[0]).0, a[1..], b);
    }
  }

  /** A copy of an applied call, delivered again at any later point, changes nothing. */
  lemma LateReplay(s: State, a: seq<Call>, c: Call, b: seq<Call>, d: seq<Call>)
    requires !c.Signup?
    requires Step(Run(s, a), c).1 == Applied
    ensures Run(s, a + [c] + b + [c] + d) == Run(s, a + [c] + b + d)
  {
    var p := a + [c] + b;
    var once := Step(Run(s, a), c).0;
    RunAppend(s, a, [c]);
    assert Run(Run(s, a), [c]) == once;
    RunAppend(s, a + [c], b);
    assert once.txns[|once.txns| - 1].key == c.key;
    assert HasKey(once.txns, c.key);
    KeysPersist(once, b, c.key);
    RunAppend(s, p, [c]);
    RunAppend(s, p + [c], d);
    RunAppend(s, p, d);
    assert Run(Run(s, p), [c]) == Run(s, p);
  }
}
