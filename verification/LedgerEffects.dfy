/** When each ledger call is applied, and what moves when it is. */
module LedgerEffects {
  import opened Common
  import opened Ledger
  import opened LedgerLaws

  /** One wallet changes by these amounts, and one row is logged. */
  predicate Books(s: State, s': State, balance: int, reserved: int, t: Txn) {
    && t.wallet in s.wallets
    && s'.wallets == s.wallets[t.wallet := Wallet(s.wallets[t.wallet].balance + balance,
                                                  s.wallets[t.wallet].reserved + reserved)]
    && s'.txns == s.txns + [t]
  }

  /** An organization can reserve any part of its balance, all of it included, and not more;
      the credits move from the balance to the reserve. */
  lemma ReserveAccepts(s: State, org: OrgId, amount: int, b: BuildId, key: Key)
    requires Consistent(s) && amount >= 0
    ensures var (s', o) := Step(s, Reserve(org, amount, b, key));
      && (o == Replayed <==> HasKey(s.txns, key))
      && (o == Applied <==> !HasKey(s.txns, key) && org in s.wallets && amount <= s.wallets[org].balance)
      && (o in {Replayed, Applied, InsufficientCredits})
      && (o != Applied ==> s' == s)
      && (o == Applied ==> Books(s, s', -amount, amount, Txn(org, Some(b), RESERVE, -amount, key)))
  {
    if org in s.wallets {
      assert s.wallets[org].balance >= 0 && s.wallets[org].reserved >= 0;
    }
  }

  /** A grant needs a positive amount, a key that is not booked, and a wallet. */
  lemma GrantAccepts(s: State, org: OrgId, amount: int, key: Key)
    requires Consistent(s)
    ensures var (s', o) := Step(s, Grant(org, amount, key));
      && (o == Ignored <==> amount <= 0)
      && (o == Replayed <==> amount > 0 && HasKey(s.txns, key))
      && (o == Applied <==> amount > 0 && !HasKey(s.txns, key) && org in s.wallets)
      && (o in {Ignored, Replayed, Applied, NoWallet})
      && (o != Applied ==> s' == s)
      && (o == Applied ==> Books(s, s', amount, 0, Txn(org, None, GRANT, amount, key)))
  {
    if org in s.wallets {
      assert s.wallets[org].balance >= 0 && s.wallets[org].reserved >= 0;
    }
  }

  /** A signup opens a wallet with what it grants, if that is positive. */
  lemma SignupOpens(s: State, org: OrgId, amount: int, key: Key)
    requires Consistent(s)
    ensures var (s', o) := Step(s, Signup(org, amount, key));
      && (o == Applied <==> org !in s.wallets && (amount > 0 ==> !HasKey(s.txns, key)))
      && (o != Applied ==> s' == s)
      && (o == Applied && amount > 0 ==>
            s' == State(s.wallets[org := Wallet(amount, 0)], s.txns + [Txn(org, None, GRANT, amount, key)]))
      && (o == Applied && amount <= 0 ==> s' == State(s.wallets[org := Wallet(0, 0)], s.txns))
  {
    ConstraintsNeverFire(s, Signup(org, amount, key));
  }

  predicate Settles(c: Call) {
    c.Capture? || c.Refund?
  }

  /** When a settlement is applied: the key is not booked and the wallet is there. */
  lemma SettleAccepts(s: State, c: Call)
    requires Consistent(s) && Settles(c) && |ReserveRows(s.txns, c.build)| <= 1
    ensures var (s', o) := Step(s, c);
      && (o == Replayed <==> HasKey(s.txns, c.key))
      && (o == Applied <==> !HasKey(s.txns, c.key) && c.org in s.wallets)
      && (o in {Replayed, Applied, Ignored})
      && (o != Applied ==> s' == s)
  {
    if c.org in s.wallets {
      assert s.wallets[c.org].balance >= 0 && s.wallets[c.org].reserved >= 0;
    }
  }

  /** With two reserves of one build nothing is settled under a new key. */
  lemma TwoReservesBlock(s: State, c: Call)
    requires Settles(c) && |ReserveRows(s.txns, c.build)| > 1 && !HasKey(s.txns, c.key)
    ensures Step(s, c) == (s, if c.org in s.wallets then MultipleRows else Ignored)
  {
  }

  lemma StepRows(s: State, c: Call, b: BuildId)
    ensures ReserveRows(Step(s, c).0.txns, b) == ReserveRows(s.txns, b)
         || (c.Reserve? && c.build == b && |ReserveRows(Step(s, c).0.txns, b)| == |ReserveRows(s.txns, b)| + 1)
  {
    var txns' := Step(s, c).0.txns;
    if txns' != s.txns {
      ReserveRowsAppend(s.txns, txns'[|s.txns|], b);
      assert txns' == s.txns + [txns'[|s.txns|]];
    }
  }

  predicate ReservesNothingFor(calls: seq<Call>, b: BuildId) {
    forall c | c in calls :: !(c.Reserve? && c.build == b)
  }

  lemma {:induction false} RowsKept(s: State, calls: seq<Call>, b: BuildId)
    requires ReservesNothingFor(calls, b)
    ensures ReserveRows(Run(s, calls).txns, b) == ReserveRows(s.txns, b)
    decreases calls
  {
    if calls == [] {
    } else {
      assert calls[0] in calls;
      StepRows(s, calls[0], b);
      RowsKept(Step(s, calls[0]).0, calls[1..], b);
    }
  }

  /** What an applied settlement moves: out of the reserve, as far as it goes, and for a
      refund into the balance. */
  predicate Released(s: State, s': State, c: Call, amount: int)
    requires Settles(c) && c.org in s.wallets
  {
    var held := s.wallets[c.org].reserved;
    var released := if amount <= held then amount else held;
    if c.Refund?
    then Books(s, s', amount, -released, Txn(c.org, Some(c.build), REFUND, amount, c.key))
    else Books(s, s', 0, -released, Txn(c.org, Some(c.build), CAPTURE, -amount, c.key))
  }

  lemma SettleReleases(s: State, c: Call, row: Txn, amount: int)
    requires Consistent(s) && Settles(c) && amount >= 0
    requires ReserveRows(s.txns, c.build) == [row] && row.amount == -amount
    requires !HasKey(s.txns, c.key) && c.org in s.wallets
    ensures Released(s, Step(s, c).0, c, amount)
  {
    assert s.wallets[c.org].balance >= 0 && s.wallets[c.org].reserved >= 0;
    assert ReservedAmount(s.txns, c.build) == amount;
  }

  lemma Reserves(s: State, org: OrgId, amount: int, b: BuildId, key: Key)
    requires Consistent(s) && amount >= 0 && ReserveRows(s.txns, b) == []
    requires Step(s, Reserve(org, amount, b, key)).1 == Applied
    ensures var s' := Step(s, Reserve(org, amount, b, key)).0;
      Consistent(s') && ReserveRows(s'.txns, b) == [Txn(org, Some(b), RESERVE, -amount, key)]
  {
    StepConsistent(s, Reserve(org, amount, b, key));
    ReserveRowsAppend(s.txns, Txn(org, Some(b), RESERVE, -amount, key), b);
  }

  /** A settlement moves what was reserved for its build, whatever else happens in between. */
  lemma SettlesWhatWasReserved(s: State, org: OrgId, amount: int, b: BuildId, key: Key, between: seq<Call>, c: Call)
    requires Consistent(s) && amount >= 0 && ReserveRows(s.txns, b) == []
    requires Step(s, Reserve(org, amount, b, key)).1 == Applied
    requires ReservesNothingFor(between, b) && Settles(c) && c.build == b
    ensures var before := Run(Step(s, Reserve(org, amount, b, key)).0, between);
      if HasKey(before.txns, c.key) || c.org !in before.wallets then Step(before, c).0 == before
      else Released(before, Step(before, c).0, c, amount)
  {
    var reserved := Step(s, Reserve(org, amount, b, key)).0;
    var before := Run(reserved, between);
    Reserves(s, org, amount, b, key);
    RowsKept(reserved, between, b);
    WalletIsFoldOfLog(reserved, between);
    SettleAccepts(before, c);
    if !HasKey(before.txns, c.key) && c.org in before.wallets {
      SettleReleases(before, c, Txn(org, Some(b), RESERVE, -amount, key), amount);
    }
  }

  lemma OtherKey(txns: seq<Txn>, t: Txn, key: Key)
    requires t.key != key && !HasKey(txns, key)
    ensures !HasKey(txns + [t], key)
  {
    assert forall u | u in txns + [t] :: u in txns || u == t;
  }

  lemma SettledAtOnce(s: State, s': State, s'': State, c: Call, amount: int, t: Txn)
    requires Settles(c) && t.wallet == c.org && Books(s, s', -amount, amount, t) && 0 <= s.wallets[c.org].reserved
    requires amount >= 0 && Released(s', s'', c, amount)
    ensures s''.wallets == if c.Refund? then s.wallets
                           else s.wallets[c.org := s.wallets[c.org].(balance := s.wallets[c.org].balance - amount)]
  {
  }

  lemma SettledAfterReserve(s: State, reserved: State, c: Call, amount: int, t: Txn)
    requires Settles(c) && amount >= 0 && t == Txn(c.org, Some(c.build), RESERVE, -amount, t.key) && t.key != c.key
    requires Books(s, reserved, -amount, amount, t) && s.wallets[c.org].reserved >= 0 && !HasKey(s.txns, c.key)
    requires Consistent(reserved) && ReserveRows(reserved.txns, c.build) == [t]
    ensures Step(reserved, c).0.wallets
      == if c.Refund? then s.wallets
         else s.wallets[c.org := s.wallets[c.org].(balance := s.wallets[c.org].balance - amount)]
  {
    OtherKey(s.txns, t, c.key);
    SettleReleases(reserved, c, t, amount);
    SettledAtOnce(s, reserved, Step(reserved, c).0, c, amount, t);
  }

  /** Reserving and refunding leaves every wallet as it was; reserving and capturing costs
      the amount and leaves nothing of it reserved. */
  lemma ReserveAndSettle(s: State, org: OrgId, amount: int, b: BuildId, key: Key, c: Call)
    requires Consistent(s) && amount >= 0 && ReserveRows(s.txns, b) == []
    requires Step(s, Reserve(org, amount, b, key)).1 == Applied
    requires Settles(c) && c.org == org && c.build == b && c.key != key && !HasKey(s.txns, c.key)
    ensures var s' := Step(Step(s, Reserve(org, amount, b, key)).0, c).0;
      && org in s.wallets
      && s'.wallets == if c.Refund? then s.wallets
                       else s.wallets[org := s.wallets[org].(balance := s.wallets[org].balance - amount)]
  {
    var t := Txn(org, Some(b), RESERVE, -amount, key);
    var reserved := Step(s, Reserve(org, amount, b, key)).0;
    ReserveAccepts(s, org, amount, b, key);
    Reserves(s, org, amount, b, key);
    SettledAfterReserve(s, reserved, c, amount, t);
  }
}
