/**
 Exactly which runs settle every build at most once, and what follows for the credits.

 A worker refund and the refund of a deletion use different idempotency keys, so
 the log does not keep one build from being settled twice. `Guard` is the check,
 made before a step on the row's status and on one key, that does.
 */
module SettlementExact {
  import opened Common
  import opened Ledger
  import opened LedgerLaws
  import opened Lifecycle
  import opened Settlement

  predicate IsSettlement(t: Txn) {
    t.kind in {CAPTURE, REFUND}
  }

  /** No build has two settlement rows. */
  ghost predicate SettledOnce(txns: seq<Txn>) {
    forall i, j | 0 <= i < j < |txns| && IsSettlement(txns[i]) && IsSettlement(txns[j]) ::
      txns[i].build != txns[j].build
  }

  predicate Settled(txns: seq<Txn>, b: BuildId) {
    exists t | t in txns :: IsSettlement(t) && t.build == Some(b)
  }

  /** What to check before a step: approving and deleting must not meet a build that
      the worker has refunded, and the worker must not refund a live one. */
  predicate Guard(w: World, op: Op) {
    match op
    case Approve(b, tenant, org) =>
      Owned(w, b, tenant, org) && w.builds[b].status == REVIEW ==> !HasKey(w.bank.txns, RefundKey(b))
    case Delete(b, tenant, org) =>
      Owned(w, b, tenant, org) && w.builds[b].status !in {LIVE, FAILED} && w.builds[b].cost != 0 ==>
        !HasKey(w.bank.txns, RefundKey(b))
    case TimeOut(b) => Visible(w, b) ==> w.builds[b].status != LIVE
    case Exhaust(b) => Visible(w, b) ==> w.builds[b].status != LIVE
    case _ => true
  }

  predicate Guarded(w: World, ops: seq<Op>)
    decreases ops
  {
    ops == [] || (Guard(w, ops[0]) && Guarded(Next(w, ops[0]), ops[1..]))
  }

  /** What single settlement adds to the invariant. */
  ghost predicate Settlements(w: World) {
    && SettledOnce(w.bank.txns)
    && (forall b | b in w.builds ::
          && (HasKey(w.bank.txns, CaptureKey(b)) <==> w.builds[b].status == LIVE)
          && (HasKey(w.bank.txns, RefundDeleteKey(b)) ==> w.builds[b].deleted))
  }

  lemma SettledByKeys(w: World, b: BuildId)
    requires Inv(w)
    ensures Settled(w.bank.txns, b) <==>
      HasKey(w.bank.txns, CaptureKey(b)) || HasKey(w.bank.txns, RefundKey(b)) || HasKey(w.bank.txns, RefundDeleteKey(b))
  {
    assert forall t | t in w.bank.txns :: Shape(w, t);
  }

  lemma SettledOnceAppend(txns: seq<Txn>, t: Txn)
    ensures SettledOnce(txns + [t]) <==>
      SettledOnce(txns) && (IsSettlement(t) ==> forall u | u in txns && IsSettlement(u) :: u.build != t.build)
  {
    var all := txns + [t];
    if SettledOnce(all) {
      assert forall i | 0 <= i < |txns| :: all[i] == txns[i];
      forall u | u in txns && IsSettlement(u) && IsSettlement(t) ensures u.build != t.build {
        var i :| 0 <= i < |txns| && txns[i] == u;
        assert all[i] == u && all[|txns|] == t;
      }
    }
  }

  /** When a settling step appends its row. */
  predicate Fires(w: World, op: Op)
    requires op.Delete? || op.Approve? || op.TimeOut? || op.Exhaust?
  {
    var txns := w.bank.txns;
    match op
    case Approve(b, tenant, org) =>
      Owned(w, b, tenant, org) && w.builds[b].status == REVIEW && !HasKey(txns, CaptureKey(b))
    case Delete(b, tenant, org) =>
      && Owned(w, b, tenant, org) && w.builds[b].status !in {LIVE, FAILED} && w.builds[b].cost != 0
      && !HasKey(txns, RefundDeleteKey(b))
    case _ => Visible(w, op.build) && !HasKey(txns, RefundKey(op.build))
  }

  lemma FiresExactly(w: World, op: Op)
    requires Inv(w) && (op.Delete? || op.Approve? || op.TimeOut? || op.Exhaust?)
    ensures if Fires(w, op) then SettlesWith(w, op) else Next(w, op).bank == w.bank
  {
    SettlingStep(w, op);
    if Visible(w, op.build) {
      MovesCost(w, op.build);
    }
  }

  /** The settling steps: single settlement survives exactly under the guard. */
  lemma SettlingExact(w: World, op: Op)
    requires Inv(w) && Settlements(w) && (op.Delete? || op.Approve? || op.TimeOut? || op.Exhaust?)
    ensures SettledOnce(Next(w, op).bank.txns) <==> (Fires(w, op) ==> !Settled(w.bank.txns, op.build))
  {
    FiresExactly(w, op);
    if Fires(w, op) {
      var t := SettlementRow(w, op);
      SettledOnceAppend(w.bank.txns, t);
      assert IsSettlement(t) && t.build == Some(op.build);
    }
  }

  lemma GuardMeansUnsettled(w: World, op: Op)
    requires Inv(w) && Settlements(w) && (op.Delete? || op.Approve? || op.TimeOut? || op.Exhaust?)
    ensures Guard(w, op) <==> (Fires(w, op) ==> !Settled(w.bank.txns, op.build))
  {
    SettledByKeys(w, op.build);
    if op.build in w.builds && w.builds[op.build].status == LIVE {
      OnlyOneKey(w, op.build);
    }
  }

  lemma OnlyOneKey(w: World, b: BuildId)
    requires Inv(w) && SettledOnce(w.bank.txns) && HasKey(w.bank.txns, CaptureKey(b))
    ensures !HasKey(w.bank.txns, RefundKey(b)) && !HasKey(w.bank.txns, RefundDeleteKey(b))
  {
    var txns := w.bank.txns;
    assert forall j | 0 <= j < |txns| :: Shape(w, txns[j]);
    var i :| 0 <= i < |txns| && txns[i].key == CaptureKey(b);
    assert IsSettlement(txns[i]) && txns[i].build == Some(b);
    assert forall j | 0 <= j < |txns| && txns[j].key in {RefundKey(b), RefundDeleteKey(b)} ::
      IsSettlement(txns[j]) && txns[j].build == Some(b);
  }

  lemma OtherSteps(w: World, op: Op)
    requires Inv(w) && !(op.Delete? || op.Approve? || op.TimeOut? || op.Exhaust?)
    ensures var txns' := Next(w, op).bank.txns;
      txns' == w.bank.txns || exists t :: txns' == w.bank.txns + [t] && !IsSettlement(t)
  {
    BankStep(w, op);
    var w', c := Next(w, op), CallOf(w, op);
    if w'.bank.txns != w.bank.txns {
      assert c.value.Signup? || c.value.Reserve? || c.value.Grant?;
      var t := w'.bank.txns[|w.bank.txns|];
      assert w'.bank.txns == w.bank.txns + [t] && !IsSettlement(t);
    }
  }

  /** One step: single settlement survives if and only if the guard held before it. */
  lemma GuardIsExact(w: World, op: Op)
    requires Inv(w) && Settlements(w)
    ensures SettledOnce(Next(w, op).bank.txns) <==> Guard(w, op)
  {
    if op.Delete? || op.Approve? || op.TimeOut? || op.Exhaust? {
      SettlingExact(w, op);
      GuardMeansUnsettled(w, op);
    } else {
      OtherSteps(w, op);
      var txns' := Next(w, op).bank.txns;
      if txns' != w.bank.txns {
        var t :| txns' == w.bank.txns + [t] && !IsSettlement(t);
        SettledOnceAppend(w.bank.txns, t);
      }
    }
  }

  /** Whether a step adds a given capture or deletion key to the log. */
  lemma NewKeys(w: World, op: Op, b: BuildId)
    requires Inv(w)
    ensures var txns' := Next(w, op).bank.txns;
      && (HasKey(txns', CaptureKey(b)) <==>
            HasKey(w.bank.txns, CaptureKey(b)) || (op.Approve? && op.build == b && Fires(w, op)))
      && (HasKey(txns', RefundDeleteKey(b)) <==>
            HasKey(w.bank.txns, RefundDeleteKey(b)) || (op.Delete? && op.build == b && Fires(w, op)))
  {
    var w' := Next(w, op);
    if op.Delete? || op.Approve? || op.TimeOut? || op.Exhaust? {
      FiresExactly(w, op);
      if Fires(w, op) {
        HasKeyAppend(w.bank.txns, SettlementRow(w, op), CaptureKey(b));
        HasKeyAppend(w.bank.txns, SettlementRow(w, op), RefundDeleteKey(b));
      }
    } else {
      OtherSteps(w, op);
      StepInv(w, op);
      if w'.bank.txns != w.bank.txns {
        var t :| w'.bank.txns == w.bank.txns + [t] && !IsSettlement(t);
        assert Shape(w', t);
        HasKeyAppend(w.bank.txns, t, CaptureKey(b));
        HasKeyAppend(w.bank.txns, t, RefundDeleteKey(b));
      }
    }
  }

  /** A guarded step keeps captures and LIVE builds in step. */
  lemma StepSettlements(w: World, op: Op)
    requires Inv(w) && Settlements(w) && Guard(w, op)
    ensures Settlements(Next(w, op))
  {
    GuardIsExact(w, op);
    var w' := Next(w, op);
    forall b | b in w'.builds
      ensures HasKey(w'.bank.txns, CaptureKey(b)) <==> w'.builds[b].status == LIVE
      ensures HasKey(w'.bank.txns, RefundDeleteKey(b)) ==> w'.builds[b].deleted
    {
      NewKeys(w, op, b);
      if b in w.builds {
        StatusStep(w, op, b);
      } else {
        AddedRow(w, op, b);
      }
    }
  }

  /** How a guarded step changes whether a build is live or deleted. */
  lemma StatusStep(w: World, op: Op, b: BuildId)
    requires Inv(w) && Settlements(w) && Guard(w, op) && b in w.builds && b in Next(w, op).builds
    ensures var row' := Next(w, op).builds[b];
      && (w.builds[b].deleted ==> row'.deleted)
      && (row'.status == LIVE <==> w.builds[b].status == LIVE || (op.Approve? && op.build == b && Fires(w, op)))
      && (op.Delete? && op.build == b && Fires(w, op) ==> row'.deleted)
  {
    if op.Approve? {
      ApproveStatus(w, op, b);
    } else if op.TimeOut? || op.Exhaust? {
      WorkerStatus(w, op, b);
    }
  }

  lemma ApproveStatus(w: World, op: Op, b: BuildId)
    requires Inv(w) && Settlements(w) && op.Approve? && b in w.builds
    ensures var row' := Next(w, op).builds[b];
      && row'.deleted == w.builds[b].deleted
      && (row'.status == LIVE <==> w.builds[b].status == LIVE || (op.build == b && Fires(w, op)))
  {
    if op.build == b {
      MovesCost(w, b);
    }
  }

  lemma WorkerStatus(w: World, op: Op, b: BuildId)
    requires (op.TimeOut? || op.Exhaust?) && Guard(w, op) && b in w.builds
    ensures var row' := Next(w, op).builds[b];
      row'.deleted == w.builds[b].deleted && (row'.status == LIVE <==> w.builds[b].status == LIVE)
  {
  }

  /** A build that a step adds is queued, and no key of it is in the log. */
  lemma AddedRow(w: World, op: Op, b: BuildId)
    requires Inv(w) && b !in w.builds && b in Next(w, op).builds
    ensures op.Start? && Next(w, op).builds[b].status == QUEUED
    ensures !HasKey(w.bank.txns, CaptureKey(b)) && !HasKey(w.bank.txns, RefundDeleteKey(b))
  {
    assert forall t | t in w.bank.txns :: Shape(w, t);
  }

  // ------------------------------------------------------------- whole runs

  lemma FreshInv(tenants: map<TenantId, OrgId>)
    ensures Inv(Fresh(tenants)) && Settlements(Fresh(tenants))
  {
  }

  lemma {:induction false} RunInv(w: World, ops: seq<Op>)
    requires Inv(w)
    ensures Inv(RunOps(w, ops))
    decreases ops
  {
    if ops == [] {
    } else {
      StepInv(w, ops[0]);
      RunInv(Next(w, ops[0]), ops[1..]);
    }
  }

  lemma StepGrows(w: World, op: Op)
    ensures w.bank.txns <= Next(w, op).bank.txns
  {
    BankStep(w, op);
  }

  lemma {:induction false} LogGrows(w: World, ops: seq<Op>)
    ensures w.bank.txns <= RunOps(w, ops).bank.txns
    decreases ops
  {
    if ops == [] {
    } else {
      StepGrows(w, ops[0]);
      LogGrows(Next(w, ops[0]), ops[1..]);
    }
  }

  lemma TwiceIsForever(txns: seq<Txn>, txns': seq<Txn>)
    requires txns <= txns' && SettledOnce(txns')
    ensures SettledOnce(txns)
  {
    assert forall i | 0 <= i < |txns| :: txns[i] == txns'[i];
  }

  lemma {:induction false} RunExact(w: World, ops: seq<Op>)
    requires Inv(w) && Settlements(w)
    ensures SettledOnce(RunOps(w, ops).bank.txns) <==> Guarded(w, ops)
    ensures Guarded(w, ops) ==> Settlements(RunOps(w, ops))
    decreases ops
  {
    if ops == [] {
    } else {
      var w' := Next(w, ops[0]);
      StepInv(w, ops[0]);
      GuardIsExact(w, ops[0]);
      if Guard(w, ops[0]) {
        StepSettlements(w, ops[0]);
        RunExact(w', ops[1..]);
      } else {
        LogGrows(w', ops[1..]);
        if SettledOnce(RunOps(w', ops[1..]).bank.txns) {
          TwiceIsForever(w'.bank.txns, RunOps(w', ops[1..]).bank.txns);
        }
      }
    }
  }

  /** For every run of the control plane from the empty database: no build is ever
      settled twice if and only if the guard held before each of its steps. */
  lemma SettledOnceIffGuarded(tenants: map<TenantId, OrgId>, ops: seq<Op>)
    ensures SettledOnce(RunOps(Fresh(tenants), ops).bank.txns) <==> Guarded(Fresh(tenants), ops)
  {
    FreshInv(tenants);
    RunExact(Fresh(tenants), ops);
  }

  /** In a guarded run a capture exists exactly for the builds that went live, a live
      build has no refund, and every dispatched build has its one RESERVE row. */
  lemma GuardedRunSettles(tenants: map<TenantId, OrgId>, ops: seq<Op>, b: BuildId)
    requires Guarded(Fresh(tenants), ops) && b in RunOps(Fresh(tenants), ops).dispatched
    ensures var w := RunOps(Fresh(tenants), ops);
      && b in w.builds
      && (HasKey(w.bank.txns, CaptureKey(b)) <==> w.builds[b].status == LIVE)
      && (w.builds[b].status == LIVE ==> !HasKey(w.bank.txns, RefundKey(b)) && !HasKey(w.bank.txns, RefundDeleteKey(b)))
      && w.builds[b].tenant in w.tenants
      && ReserveRows(w.bank.txns, b) == [Txn(OrgOf(w, b), Some(b), RESERVE, -w.builds[b].cost, ReserveKey(b))]
  {
    FreshInv(tenants);
    RunInv(Fresh(tenants), ops);
    RunExact(Fresh(tenants), ops);
    DispatchedSettles(RunOps(Fresh(tenants), ops), b);
  }

  lemma DispatchedSettles(w: World, b: BuildId)
    requires Inv(w) && Settlements(w) && b in w.dispatched
    ensures b in w.builds && w.builds[b].tenant in w.tenants
    ensures HasKey(w.bank.txns, CaptureKey(b)) <==> w.builds[b].status == LIVE
    ensures w.builds[b].status == LIVE ==>
      !HasKey(w.bank.txns, RefundKey(b)) && !HasKey(w.bank.txns, RefundDeleteKey(b))
    ensures ReserveRows(w.bank.txns, b) == [Txn(OrgOf(w, b), Some(b), RESERVE, -w.builds[b].cost, ReserveKey(b))]
  {
    assert ReservedOnce(w, b);
    if w.builds[b].status == LIVE {
      OnlyOneKey(w, b);
    }
  }

  /** A worker that refunds only builds it finds before a terminal status, or
      already FAILED, and leaves them FAILED: never on the retries path. */
  predicate WorkerFailsWhatItRefunds(w: World, op: Op) {
    match op
    case TimeOut(b) => Visible(w, b) ==> w.builds[b].status !in {LIVE, CANCELLED}
    case Exhaust(b) => Visible(w, b) ==> w.builds[b].status == FAILED
    case _ => true
  }

  ghost predicate Polite(w: World, ops: seq<Op>)
    decreases ops
  {
    ops == [] || (WorkerFailsWhatItRefunds(w, ops[0]) && Polite(Next(w, ops[0]), ops[1..]))
  }

  /** Under that discipline a refunded build stays FAILED. */
  ghost predicate RefundedFailed(w: World) {
    forall b | b in w.builds && HasKey(w.bank.txns, RefundKey(b)) :: w.builds[b].status == FAILED
  }

  lemma NewRefundKey(w: World, op: Op, b: BuildId)
    requires Inv(w)
    ensures HasKey(Next(w, op).bank.txns, RefundKey(b)) <==>
      HasKey(w.bank.txns, RefundKey(b)) || ((op.TimeOut? || op.Exhaust?) && op.build == b && Fires(w, op))
  {
    var w' := Next(w, op);
    if op.Delete? || op.Approve? || op.TimeOut? || op.Exhaust? {
      FiresExactly(w, op);
      if Fires(w, op) {
        HasKeyAppend(w.bank.txns, SettlementRow(w, op), RefundKey(b));
      }
    } else {
      OtherSteps(w, op);
      StepInv(w, op);
      if w'.bank.txns != w.bank.txns {
        var t :| w'.bank.txns == w.bank.txns + [t] && !IsSettlement(t);
        assert Shape(w', t);
        HasKeyAppend(w.bank.txns, t, RefundKey(b));
      }
    }
  }

  lemma FailedStaysFailed(w: World, op: Op, b: BuildId)
    requires b in w.builds
    ensures var w' := Next(w, op);
      && b in w'.builds
      && (w.builds[b].status == FAILED ==> w'.builds[b].status == FAILED)
      && (op == TimeOut(b) && Visible(w, b) && w' != w && w.builds[b].status != CANCELLED ==>
            w'.builds[b].status == FAILED)
  {
  }

  lemma PoliteStep(w: World, op: Op)
    requires Inv(w) && RefundedFailed(w) && WorkerFailsWhatItRefunds(w, op)
    ensures Guard(w, op) && RefundedFailed(Next(w, op))
  {
    var w' := Next(w, op);
    assert forall t | t in w.bank.txns :: Shape(w, t);
    forall b | b in w'.builds && HasKey(w'.bank.txns, RefundKey(b)) ensures w'.builds[b].status == FAILED {
      NewRefundKey(w, op, b);
      if b in w.builds {
        FailedStaysFailed(w, op, b);
        if op.TimeOut? && op.build == b && Fires(w, op) {
          FiresExactly(w, op);
        }
      }
    }
  }

  lemma {:induction false} PoliteIsGuarded(w: World, ops: seq<Op>)
    requires Inv(w) && RefundedFailed(w) && Polite(w, ops)
    ensures Guarded(w, ops)
    decreases ops
  {
    if ops == [] {
    } else {
      PoliteStep(w, ops[0]);
      StepInv(w, ops[0]);
      PoliteIsGuarded(Next(w, ops[0]), ops[1..]);
    }
  }

  /** So no run with such a worker ever settles a build twice. */
  lemma PoliteRunSettlesOnce(tenants: map<TenantId, OrgId>, ops: seq<Op>)
    requires Polite(Fresh(tenants), ops)
    ensures SettledOnce(RunOps(Fresh(tenants), ops).bank.txns)
  {
    FreshInv(tenants);
    PoliteIsGuarded(Fresh(tenants), ops);
    SettledOnceIffGuarded(tenants, ops);
  }
}
