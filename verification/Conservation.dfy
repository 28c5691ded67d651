/** Credits are conserved in every run that settles each build at most once. */
module Conservation {
  import opened Common
  import opened Ledger
  import opened LedgerLaws
  import opened Lifecycle
  import opened Settlement
  import opened SettlementExact

  /** The reserves among `rows` of `org` whose build has no settlement in `log`. */
  function Outstanding(rows: seq<Txn>, log: seq<Txn>, org: OrgId): int {
    if rows == [] then 0 else
      var t := rows[|rows| - 1];
      Outstanding(rows[..|rows| - 1], log, org) +
      if t.wallet == org && t.kind == RESERVE && t.build.Some? && !Settled(log, t.build.value) then -t.amount else 0
  }

  function Owed(rows: seq<Txn>, org: OrgId): int {
    if rows == [] then 0 else
      var t := rows[|rows| - 1];
      Owed(rows[..|rows| - 1], org) + if t.wallet == org then -t.amount else 0
  }

  lemma SettledAppend(log: seq<Txn>, t: Txn, b: BuildId)
    ensures Settled(log + [t], b) <==> Settled(log, b) || (IsSettlement(t) && t.build == Some(b))
  {
    if Settled(log, b) {
      var u :| u in log && IsSettlement(u) && u.build == Some(b);
      assert u in log + [t];
    }
    if IsSettlement(t) && t.build == Some(b) {
      assert t in log + [t];
    }
  }

  /** Settling `b` takes its reserve rows, and nothing else, out of the outstanding sum. */
  lemma {:induction false} OutstandingSettle(rows: seq<Txn>, log: seq<Txn>, t: Txn, b: BuildId, org: OrgId)
    requires IsSettlement(t) && t.build == Some(b) && !Settled(log, b)
    ensures Outstanding(rows, log + [t], org) == Outstanding(rows, log, org) - Owed(ReserveRows(rows, b), org)
  {
    if rows == [] {
    } else {
      var prior, u := rows[..|rows| - 1], rows[|rows| - 1];
      OutstandingSettle(prior, log, t, b, org);
      if u.build.Some? {
        SettledAppend(log, t, u.build.value);
      }
      var rs := ReserveRows(prior, b);
      assert (rs + [u])[..|rs|] == rs;
    }
  }

  lemma {:induction false} OutstandingOther(rows: seq<Txn>, log: seq<Txn>, t: Txn, org: OrgId)
    requires !IsSettlement(t)
    ensures Outstanding(rows, log + [t], org) == Outstanding(rows, log, org)
  {
    if rows == [] {
    } else {
      OutstandingOther(rows[..|rows| - 1], log, t, org);
      var u := rows[|rows| - 1];
      if u.build.Some? {
        SettledAppend(log, t, u.build.value);
      }
    }
  }

  lemma {:induction false} OutstandingNonNegative(rows: seq<Txn>, log: seq<Txn>, org: OrgId)
    requires forall t | t in rows && t.kind == RESERVE :: t.amount <= 0
    ensures Outstanding(rows, log, org) >= 0
  {
    if rows == [] {
    } else {
      assert forall t | t in rows[..|rows| - 1] :: t in rows;
      OutstandingNonNegative(rows[..|rows| - 1], log, org);
    }
  }

  lemma OutstandingAppendRow(rows: seq<Txn>, log: seq<Txn>, t: Txn, org: OrgId)
    ensures Outstanding(rows + [t], log, org) == Outstanding(rows, log, org) +
      if t.wallet == org && t.kind == RESERVE && t.build.Some? && !Settled(log, t.build.value) then -t.amount else 0
  {
    assert (rows + [t])[..|rows|] == rows;
  }

  lemma NoClampAppend(txns: seq<Txn>, t: Txn, org: OrgId)
    ensures NoClamp(txns + [t], org) <==>
      NoClamp(txns, org) &&
      (t.wallet == org && IsSettlement(t) ==> Abs(t.amount) <= Fold(txns, org).reserved)
  {
    var all := txns + [t];
    assert forall i | 0 <= i < |txns| :: all[i] == txns[i] && all[..i] == txns[..i];
    assert all[|txns|] == t && all[..|txns|] == txns;
  }

  lemma FoldAppend(txns: seq<Txn>, t: Txn, org: OrgId)
    ensures Fold(txns + [t], org) == if t.wallet == org then ApplyRow(Fold(txns, org), t) else Fold(txns, org)
  {
    assert (txns + [t])[..|txns|] == txns;
  }

  ghost predicate Balanced(txns: seq<Txn>, org: OrgId) {
    Fold(txns, org).reserved == Outstanding(txns, txns, org) && NoClamp(txns, org)
  }

  /** A settlement row of what its build reserved keeps the books balanced. */
  lemma SettlementBalanced(txns: seq<Txn>, t: Txn, b: BuildId, row: Txn, org: OrgId)
    requires Balanced(txns, org) && IsSettlement(t) && t.build == Some(b) && !Settled(txns, b)
    requires ReserveRows(txns, b) == [row] && row.wallet == t.wallet && Abs(t.amount) == -row.amount
    requires Outstanding(txns, txns + [t], org) >= 0
    ensures Balanced(txns + [t], org)
  {
    FoldAppend(txns, t, org);
    OutstandingAppendRow(txns, txns + [t], t, org);
    OutstandingSettle(txns, txns, t, b, org);
    NoClampAppend(txns, t, org);
    assert Owed([row], org) == if row.wallet == org then -row.amount else 0 by {
      assert [row][..0] == [];
    }
  }

  lemma SettlingBalanced(w: World, op: Op, org: OrgId)
    requires Inv(w) && Balanced(w.bank.txns, org)
    requires op.Delete? || op.Approve? || op.TimeOut? || op.Exhaust?
    requires Fires(w, op) && !Settled(w.bank.txns, op.build)
    ensures Balanced(Next(w, op).bank.txns, org)
  {
    var txns, b := w.bank.txns, op.build;
    FiresExactly(w, op);
    var t := SettlementRow(w, op);
    MovesCost(w, b);
    assert ReservedOnce(w, b);
    ReservesOwe(w);
    OutstandingNonNegative(txns, txns + [t], org);
    SettlementBalanced(txns, t, b, ReserveRows(txns, b)[0], org);
  }

  lemma ReservesOwe(w: World)
    requires Inv(w)
    ensures forall u | u in w.bank.txns && u.kind == RESERVE :: u.amount <= 0
  {
    forall u | u in w.bank.txns && u.kind == RESERVE ensures u.amount <= 0 {
      assert Shape(w, u);
      assert ReservedOnce(w, u.key.build);
    }
  }

  /** So does any other row, if a reserve is for a build without a settlement. */
  lemma RowBalanced(txns: seq<Txn>, t: Txn, org: OrgId)
    requires Balanced(txns, org) && !IsSettlement(t)
    requires t.kind == RESERVE ==> t.build.Some? && !Settled(txns, t.build.value)
    ensures Balanced(txns + [t], org)
  {
    FoldAppend(txns, t, org);
    OutstandingAppendRow(txns, txns + [t], t, org);
    OutstandingOther(txns, txns, t, org);
    NoClampAppend(txns, t, org);
    if t.kind == RESERVE {
      SettledAppend(txns, t, t.build.value);
    }
  }

  lemma OtherBalanced(w: World, op: Op, org: OrgId)
    requires Inv(w) && Balanced(w.bank.txns, org)
    requires !(op.Delete? || op.Approve? || op.TimeOut? || op.Exhaust?)
    ensures Balanced(Next(w, op).bank.txns, org)
  {
    var txns, w' := w.bank.txns, Next(w, op);
    OtherSteps(w, op);
    StepInv(w, op);
    if w'.bank.txns != txns {
      var t :| w'.bank.txns == txns + [t] && !IsSettlement(t);
      assert Shape(w', t);
      if t.kind == RESERVE {
        ReservesAreNew(w, op, t);
        NotStartedNotSettled(w, op, t.key.build);
      }
      RowBalanced(txns, t, org);
    }
  }

  lemma ReservesAreNew(w: World, op: Op, t: Txn)
    requires Inv(w) && Next(w, op).bank.txns == w.bank.txns + [t] && Shape(Next(w, op), t) && t.kind == RESERVE
    ensures t.key.ReserveKey? && t.build == Some(t.key.build)
    ensures HasKey(Next(w, op).bank.txns, t.key) && !HasKey(w.bank.txns, t.key)
  {
    var txns := Next(w, op).bank.txns;
    StepBank(w, op);
    assert txns[|w.bank.txns|] == t;
    forall u | u in w.bank.txns ensures u.key != t.key {
      var i :| 0 <= i < |w.bank.txns| && w.bank.txns[i] == u;
      assert txns[i] == u;
    }
  }

  lemma NotStartedNotSettled(w: World, op: Op, b: BuildId)
    requires Inv(w) && HasKey(Next(w, op).bank.txns, ReserveKey(b)) && !HasKey(w.bank.txns, ReserveKey(b))
    ensures !Settled(w.bank.txns, b)
  {
    assert ReservedOnce(w, b);
    forall t | t in w.bank.txns && IsSettlement(t) ensures t.build != Some(b) {
      assert Shape(w, t);
    }
  }

  lemma {:induction false} RunBalanced(w: World, ops: seq<Op>, org: OrgId)
    requires Inv(w) && Settlements(w) && Guarded(w, ops) && Balanced(w.bank.txns, org)
    ensures Balanced(RunOps(w, ops).bank.txns, org)
    decreases ops
  {
    if ops == [] {
    } else {
      var op := ops[0];
      if op.Delete? || op.Approve? || op.TimeOut? || op.Exhaust? {
        GuardMeansUnsettled(w, op);
        FiresExactly(w, op);
        if Fires(w, op) {
          SettlingBalanced(w, op, org);
        }
      } else {
        OtherBalanced(w, op, org);
      }
      StepInv(w, op);
      StepSettlements(w, op);
      RunBalanced(Next(w, op), ops[1..], org);
    }
  }

  /** In every guarded run: granted = balance + reserved + captured, `reserved` is the
      sum of the reserves of unsettled builds, and no `max(0, ...)` clamp ever
      changed a value. */
  lemma GuardedRunConserves(tenants: map<TenantId, OrgId>, ops: seq<Op>, org: OrgId)
    requires Guarded(Fresh(tenants), ops) && org in RunOps(Fresh(tenants), ops).bank.wallets
    ensures var s := RunOps(Fresh(tenants), ops).bank;
      && Total(s.txns, org, {GRANT}) == s.wallets[org].balance + s.wallets[org].reserved - Total(s.txns, org, {CAPTURE})
      && s.wallets[org].reserved == Outstanding(s.txns, s.txns, org)
      && NoClamp(s.txns, org)
  {
    var w := RunOps(Fresh(tenants), ops);
    FreshInv(tenants);
    RunInv(Fresh(tenants), ops);
    RunBalanced(Fresh(tenants), ops, org);
    FoldsStayNonNegative(Fresh(tenants), ops, org);
    ShortfallIsSurplus(w.bank.txns, org);
    ShortfallZero(w.bank.txns, org);
  }

  lemma OneStepReserved(w: World, op: Op, org: OrgId)
    requires Inv(w) && ReservedStaysNonNegative(w.bank.txns, org)
    ensures ReservedStaysNonNegative(Next(w, op).bank.txns, org)
  {
    BankStep(w, op);
    var c := CallOf(w, op);
    if c.Some? {
      StepReserved(w.bank, c.value, org);
    }
  }

  lemma {:induction false} FoldsStayNonNegative(w: World, ops: seq<Op>, org: OrgId)
    requires Inv(w) && ReservedStaysNonNegative(w.bank.txns, org)
    ensures ReservedStaysNonNegative(RunOps(w, ops).bank.txns, org)
    decreases ops
  {
    if ops == [] {
    } else {
      StepInv(w, ops[0]);
      OneStepReserved(w, ops[0], org);
      FoldsStayNonNegative(Next(w, ops[0]), ops[1..], org);
    }
  }

  // ------------------------------------------------------ what the guard shuts out

  /** Six failing executions of the build task, then the refund of the last retry. */
  function RetriesExhausted(b: BuildId): seq<Op> {
    [Attempt(b, false), Attempt(b, false), Attempt(b, false),
     Attempt(b, false), Attempt(b, false), Attempt(b, false), Exhaust(b)]
  }

  lemma RunOne(w: World, op: Op, ops: seq<Op>)
    ensures RunOps(w, [op] + ops) == RunOps(Next(w, op), ops)
  {
    assert ([op] + ops)[1..] == ops;
  }

  /** The failing executions change nothing. */
  lemma RetriesChangeNothing(w: World, b: BuildId)
    ensures RunOps(w, RetriesExhausted(b)) == Next(w, Exhaust(b))
  {
    var a := Attempt(b, false);
    assert Next(w, a) == w;
    assert RetriesExhausted(b) == [a] + ([a] + ([a] + ([a] + ([a] + ([a] + [Exhaust(b)])))));
    RunOne(w, a, [Exhaust(b)]);
    RunOne(w, a, [a] + [Exhaust(b)]);
    RunOne(w, a, [a] + ([a] + [Exhaust(b)]));
    RunOne(w, a, [a] + ([a] + ([a] + [Exhaust(b)])));
    RunOne(w, a, [a] + ([a] + ([a] + ([a] + [Exhaust(b)]))));
    RunOne(w, a, [a] + ([a] + ([a] + ([a] + ([a] + [Exhaust(b)])))));
    RunOne(w, Exhaust(b), []);
  }

  /** Exhausting the retries refunds the build but does not change its status. */
  lemma RetriesLeaveStatus(w: World, b: BuildId)
    requires Inv(w) && Visible(w, b) && !HasKey(w.bank.txns, RefundKey(b))
    ensures var w' := RunOps(w, RetriesExhausted(b));
      && w' == Next(w, Exhaust(b))
      && w'.builds == w.builds
      && HasKey(w'.bank.txns, RefundKey(b))
      && w'.tenants == w.tenants
      && w.builds[b].tenant in w.tenants && OrgOf(w, b) in w.bank.wallets
      && var wallet, x := w.bank.wallets[OrgOf(w, b)], w.builds[b].cost;
         w'.bank.wallets == w.bank.wallets[OrgOf(w, b) := Wallet(wallet.balance + x, Max(0, wallet.reserved - x))]
  {
    RetriesChangeNothing(w, b);
    MovesCost(w, b);
    FiresExactly(w, Exhaust(b));
    HasKeyAppend(w.bank.txns, SettlementRow(w, Exhaust(b)), RefundKey(b));
    assert w.builds[b := w.builds[b]] == w.builds;
  }

  lemma DeletePays(w: World, b: BuildId, tenant: TenantId, org: OrgId)
    requires Inv(w) && Owned(w, b, tenant, org)
    requires w.builds[b].status !in {LIVE, FAILED} && w.builds[b].cost > 0
    requires !HasKey(w.bank.txns, RefundDeleteKey(b))
    ensures org in w.bank.wallets
    ensures var wallet, x := w.bank.wallets[org], w.builds[b].cost;
      Next(w, Delete(b, tenant, org)).bank.wallets
        == w.bank.wallets[org := Wallet(wallet.balance + x, Max(0, wallet.reserved - x))]
  {
    MovesCost(w, b);
  }

  /** Why the guard is needed: in every reachable world, an owner who deletes a build
      whose retries ran out while it was queued, or after a cancellation, is paid
      its cost twice. */
  lemma RetriesThenDeleteRefundTwice(w: World, b: BuildId, tenant: TenantId, org: OrgId)
    requires Inv(w) && Owned(w, b, tenant, org)
    requires w.builds[b].status !in {LIVE, FAILED} && w.builds[b].cost > 0
    requires !HasKey(w.bank.txns, RefundKey(b)) && !HasKey(w.bank.txns, RefundDeleteKey(b))
    ensures org in w.bank.wallets
    ensures var mid := RunOps(w, RetriesExhausted(b));
      var end := Next(mid, Delete(b, tenant, org));
      && !Guard(mid, Delete(b, tenant, org))
      && org in end.bank.wallets
      && end.bank.wallets[org].balance == w.bank.wallets[org].balance + 2 * w.builds[b].cost
      && end.bank.wallets[org].reserved == Max(0, w.bank.wallets[org].reserved - 2 * w.builds[b].cost)
  {
    var mid := RunOps(w, RetriesExhausted(b));
    RetriesLeaveStatus(w, b);
    StepInv(w, Exhaust(b));
    MovesCost(w, b);
    StepFrame(w, Exhaust(b));
    NewKeys(w, Exhaust(b), b);
    DeletePays(mid, b, tenant, org);
  }

  function StartedWorld(b: BuildId, tenant: TenantId, org: OrgId): World {
    RunOps(Fresh(map[tenant := org]), [SignUp(org, 100), Start(b, tenant, org, 10)])
  }

  lemma SetupRun(b: BuildId, tenant: TenantId, org: OrgId)
    ensures var granted := Txn(org, None, GRANT, 100, SignupKey(org));
      var row := Txn(org, Some(b), RESERVE, -10, ReserveKey(b));
      StartedWorld(b, tenant, org) == World(
        State(map[org := Wallet(90, 10)], [granted, row]), map[tenant := org],
        map[b := Build(tenant, QUEUED, 10, false)], map[], [b])
  {
    var w0 := Fresh(map[tenant := org]);
    var w1 := Next(w0, SignUp(org, 100));
    var granted := Txn(org, None, GRANT, 100, SignupKey(org));
    assert w1 == w0.(bank := State(map[org := Wallet(100, 0)], [granted]));
    RunOne(w0, SignUp(org, 100), [Start(b, tenant, org, 10)]);
    RunOne(w1, Start(b, tenant, org, 10), []);
    assert !HasKey([granted], ReserveKey(b));
    assert w1.bank.wallets[org := Wallet(90, 10)] == map[org := Wallet(90, 10)];
  }

  lemma StartedFacts(b: BuildId, tenant: TenantId, org: OrgId)
    ensures var w := StartedWorld(b, tenant, org);
      && Inv(w)
      && !HasKey(w.bank.txns, RefundKey(b)) && !HasKey(w.bank.txns, RefundDeleteKey(b))
      && Total(w.bank.txns, org, {GRANT}) == 100
  {
    FreshInv(map[tenant := org]);
    RunInv(Fresh(map[tenant := org]), [SignUp(org, 100), Start(b, tenant, org, 10)]);
    SetupRun(b, tenant, org);
    var txns := StartedWorld(b, tenant, org).bank.txns;
    var granted := [txns[0]];
    assert Total(granted, org, {GRANT}) == 100 by {
      assert granted[..0] == [];
    }
    assert txns[..1] == granted;
  }

  /** Such a run exists: it ends with a balance of 110 out of the 100 that were granted. */
  lemma DoubleRefundRun(b: BuildId, tenant: TenantId, org: OrgId)
    ensures var end := Next(RunOps(StartedWorld(b, tenant, org), RetriesExhausted(b)), Delete(b, tenant, org));
      && org in end.bank.wallets
      && end.bank.wallets[org].balance == 110
      && Total(StartedWorld(b, tenant, org).bank.txns, org, {GRANT}) == 100
  {
    StartedFacts(b, tenant, org);
    var w := StartedWorld(b, tenant, org);
    assert w.builds == map[b := Build(tenant, QUEUED, 10, false)]
      && w.tenants == map[tenant := org] && w.bank.wallets == map[org := Wallet(90, 10)] by {
      SetupRun(b, tenant, org);
    }
    RetriesThenDeleteRefundTwice(w, b, tenant, org);
  }
}
