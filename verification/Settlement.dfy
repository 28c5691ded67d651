/** Settlement of builds over whole runs of the control plane. */
module Settlement {
  import opened Common
  import opened Ledger
  import opened LedgerLaws
  import opened Lifecycle

  function OrgOf(w: World, b: BuildId): OrgId
    requires b in w.builds && w.builds[b].tenant in w.tenants
  {
    w.tenants[w.builds[b].tenant]
  }

  /** The log row that a key may stand for. */
  predicate Shape(w: World, t: Txn) {
    match t.key
    case SignupKey(org) => t.kind == GRANT && t.build == None && t.wallet == org
    case PaymentKey(ref) =>
      && ref in w.payments && w.payments[ref].status == CONFIRMED
      && t == Txn(w.payments[ref].org, None, GRANT, w.payments[ref].credits, t.key)
    case ReserveKey(b) => BuildRow(w, b, t, RESERVE, -1)
    case CaptureKey(b) => BuildRow(w, b, t, CAPTURE, -1)
    case RefundKey(b) => BuildRow(w, b, t, REFUND, 1)
    case RefundDeleteKey(b) => BuildRow(w, b, t, REFUND, 1)
  }

  predicate BuildRow(w: World, b: BuildId, t: Txn, kind: Kind, sign: int) {
    && b in w.builds && w.builds[b].tenant in w.tenants
    && t == Txn(OrgOf(w, b), Some(b), kind, if sign < 0 then -w.builds[b].cost else w.builds[b].cost, t.key)
  }

  ghost predicate ReservedOnce(w: World, b: BuildId) {
    if b in w.builds then
      && w.builds[b].cost >= 0
      && w.builds[b].tenant in w.tenants
      && OrgOf(w, b) in w.bank.wallets
      && HasKey(w.bank.txns, ReserveKey(b))
      && ReserveRows(w.bank.txns, b) == [Txn(OrgOf(w, b), Some(b), RESERVE, -w.builds[b].cost, ReserveKey(b))]
    else
      ReserveRows(w.bank.txns, b) == []
  }

  ghost predicate Inv(w: World) {
    && Consistent(w.bank)
    && (forall t | t in w.bank.txns :: Shape(w, t))
    && (forall b :: ReservedOnce(w, b))
    && ConfirmedArePaid(w)
    && (forall b | b in w.dispatched :: b in w.builds)
  }

  // --------------------------------------------------- the invariant, step by step

  /** The ledger call that a step may make. */
  function CallOf(w: World, op: Op): Option<Call> {
    match op
    case SignUp(org, credits) => Some(Signup(org, credits, SignupKey(org)))
    case Start(b, _, org, cost) => Some(Reserve(org, cost, b, ReserveKey(b)))
    case Delete(b, _, org) => Some(Refund(org, b, RefundDeleteKey(b)))
    case Approve(b, _, org) => Some(Capture(org, b, CaptureKey(b)))
    case TimeOut(b) =>
      if b in w.builds && w.builds[b].tenant in w.tenants then Some(Refund(OrgOf(w, b), b, RefundKey(b))) else None
    case Exhaust(b) =>
      if b in w.builds && w.builds[b].tenant in w.tenants then Some(Refund(OrgOf(w, b), b, RefundKey(b))) else None
    case Webhook(ref, _, _) =>
      if ref in w.payments then Some(Grant(w.payments[ref].org, w.payments[ref].credits, PaymentKey(ref))) else None
    case _ => None
  }

  lemma BankStep(w: World, op: Op)
    ensures var w', c := Next(w, op), CallOf(w, op);
      w'.bank == w.bank || (c.Some? && w'.bank == Step(w.bank, c.value).0)
  {
  }

  /** What no step changes: ownership and cost of a build, owner and size of a payment. */
  ghost predicate Frame(w: World, w': World) {
    RowsFrame(w, w') && w.bank.wallets.Keys <= w'.bank.wallets.Keys
  }

  ghost predicate RowsFrame(w: World, w': World) {
    && w'.tenants == w.tenants
    && (forall b | b in w.builds ::
          b in w'.builds && w'.builds[b].tenant == w.builds[b].tenant && w'.builds[b].cost == w.builds[b].cost)
    && (forall ref | ref in w.payments ::
          && ref in w'.payments
          && w'.payments[ref].org == w.payments[ref].org
          && w'.payments[ref].credits == w.payments[ref].credits
          && (w.payments[ref].status == CONFIRMED ==> w'.payments[ref].status == CONFIRMED))
  }

  lemma WorkerRowsFrame(w: World, op: Op)
    requires op.TimeOut? || op.Exhaust? || op.Attempt?
    ensures RowsFrame(w, Next(w, op))
  {
  }

  lemma OwnerRowsFrame(w: World, op: Op)
    requires op.Start? || op.Cancel? || op.Delete? || op.Approve?
    ensures RowsFrame(w, Next(w, op))
  {
  }

  lemma StepRowsFrame(w: World, op: Op)
    ensures RowsFrame(w, Next(w, op))
  {
    if op.TimeOut? || op.Exhaust? || op.Attempt? {
      WorkerRowsFrame(w, op);
    } else if op.Start? || op.Cancel? || op.Delete? || op.Approve? {
      OwnerRowsFrame(w, op);
    }
  }

  lemma StepFrame(w: World, op: Op)
    ensures Frame(w, Next(w, op))
  {
    StepRowsFrame(w, op);
    BankStep(w, op);
  }

  lemma HasKeyAppend(txns: seq<Txn>, t: Txn, k: Key)
    ensures HasKey(txns + [t], k) <==> HasKey(txns, k) || t.key == k
  {
    if HasKey(txns, k) {
      var u :| u in txns && u.key == k;
      assert u in txns + [t];
    }
    if t.key == k {
      assert t in txns + [t];
    }
  }

  ghost predicate ConfirmedArePaid(w: World) {
    forall ref | ref in w.payments && w.payments[ref].status == CONFIRMED && w.payments[ref].credits > 0 ::
      HasKey(w.bank.txns, PaymentKey(ref))
  }

  lemma InvSame(w: World, w': World)
    requires Inv(w) && Frame(w, w') && Consistent(w'.bank)
    requires w'.bank.txns == w.bank.txns && w'.builds.Keys == w.builds.Keys
    requires ConfirmedArePaid(w') && w'.dispatched == w.dispatched
    ensures Inv(w')
  {
    forall t | t in w.bank.txns ensures Shape(w', t) {
      ShapeKept(w, w', t);
    }
    forall b ensures ReservedOnce(w', b) {
      assert ReservedOnce(w, b);
    }
  }

  lemma ShapeKept(w: World, w': World, t: Txn)
    requires Frame(w, w') && Shape(w, t)
    ensures Shape(w', t)
  {
  }

  /** A build that is new with the row `t` is the one that `t` reserves for. */
  predicate NewWith(w: World, w': World, t: Txn, b: BuildId) {
    b in w'.builds && b !in w.builds ==>
      && w'.builds[b].cost >= 0 && w'.builds[b].tenant in w'.tenants && OrgOf(w', b) in w'.bank.wallets
      && t.key == ReserveKey(b)
  }

  lemma ReservedAppended(w: World, w': World, t: Txn, b: BuildId)
    requires Frame(w, w') && ReservedOnce(w, b) && NewWith(w, w', t, b)
    requires w'.bank.txns == w.bank.txns + [t] && Shape(w', t)
    requires t.kind == RESERVE ==> t.key.ReserveKey? && t.key.build !in w.builds
    ensures ReservedOnce(w', b)
  {
    ReserveRowsAppend(w.bank.txns, t, b);
    HasKeyAppend(w.bank.txns, t, ReserveKey(b));
  }

  lemma InvAppend(w: World, w': World, t: Txn)
    requires Inv(w) && Frame(w, w') && Consistent(w'.bank)
    requires w'.bank.txns == w.bank.txns + [t] && Shape(w', t)
    requires forall b | b in w'.builds :: NewWith(w, w', t, b)
    requires t.kind == RESERVE ==> t.key.ReserveKey? && t.key.build !in w.builds
    requires ConfirmedArePaid(w')
    requires forall b | b in w'.dispatched :: b in w'.builds
    ensures Inv(w')
  {
    forall u | u in w'.bank.txns ensures Shape(w', u) {
      if u in w.bank.txns {
        ShapeKept(w, w', u);
      }
    }
    forall b ensures ReservedOnce(w', b) {
      ReservedAppended(w, w', t, b);
    }
  }

  lemma StepBank(w: World, op: Op)
    requires Inv(w)
    ensures Frame(w, Next(w, op)) && Consistent(Next(w, op).bank)
  {
    StepFrame(w, op);
    BankStep(w, op);
    var c := CallOf(w, op);
    if c.Some? {
      StepConsistent(w.bank, c.value);
    }
  }

  lemma HasKeyPrefix(txns: seq<Txn>, txns': seq<Txn>, k: Key)
    requires txns <= txns' && HasKey(txns, k)
    ensures HasKey(txns', k)
  {
    var u :| u in txns && u.key == k;
    assert u in txns';
  }

  lemma StillPaid(w: World, w': World)
    requires ConfirmedArePaid(w) && w.bank.txns <= w'.bank.txns && w'.payments == w.payments
    ensures ConfirmedArePaid(w')
  {
    forall ref | ref in w.payments && w.payments[ref].status == CONFIRMED && w.payments[ref].credits > 0
      ensures HasKey(w'.bank.txns, PaymentKey(ref)) {
      HasKeyPrefix(w.bank.txns, w'.bank.txns, PaymentKey(ref));
    }
  }

  lemma InvSignUp(w: World, op: Op)
    requires Inv(w) && op.SignUp?
    ensures Inv(Next(w, op))
  {
    StepBank(w, op);
    var w' := Next(w, op);
    StillPaid(w, w');
    if w'.bank.txns == w.bank.txns {
      InvSame(w, w');
    } else {
      InvAppend(w, w', Txn(op.org, None, GRANT, op.credits, SignupKey(op.org)));
    }
  }

  lemma NotReserved(w: World, b: BuildId)
    requires Inv(w) && b !in w.builds
    ensures !HasKey(w.bank.txns, ReserveKey(b))
  {
    forall t | t in w.bank.txns ensures t.key != ReserveKey(b) {
      assert Shape(w, t);
    }
  }

  lemma InvStart(w: World, op: Op)
    requires Inv(w) && op.Start?
    ensures Inv(Next(w, op))
  {
    StepBank(w, op);
    var w', b := Next(w, op), op.build;
    var cost: int := op.cost;
    StillPaid(w, w');
    if b !in w.builds {
      NotReserved(w, b);
    }
    if w'.bank.txns == w.bank.txns {
      InvSame(w, w');
    } else {
      InvAppend(w, w', Txn(op.org, Some(b), RESERVE, -cost, ReserveKey(b)));
    }
  }

  /** A settlement of a started build moves exactly the cost of that build. */
  lemma MovesCost(w: World, b: BuildId)
    requires Inv(w) && b in w.builds
    ensures |ReserveRows(w.bank.txns, b)| == 1
    ensures ReservedAmount(w.bank.txns, b) == w.builds[b].cost >= 0
    ensures w.builds[b].tenant in w.tenants && OrgOf(w, b) in w.bank.wallets
  {
    assert ReservedOnce(w, b);
  }

  /** The row that a settling step appends, if it appends one. */
  function SettlementRow(w: World, op: Op): Txn
    requires op.Delete? || op.Approve? || op.TimeOut? || op.Exhaust?
    requires op.build in w.builds && w.builds[op.build].tenant in w.tenants
  {
    var org, b, cost := OrgOf(w, op.build), op.build, w.builds[op.build].cost;
    if op.Approve? then Txn(org, Some(b), CAPTURE, -cost, CaptureKey(b))
    else Txn(org, Some(b), REFUND, cost, if op.Delete? then RefundDeleteKey(b) else RefundKey(b))
  }

  ghost predicate SettlesWith(w: World, op: Op)
    requires op.Delete? || op.Approve? || op.TimeOut? || op.Exhaust?
  {
    && op.build in w.builds && w.builds[op.build].tenant in w.tenants
    && Next(w, op).bank.txns == w.bank.txns + [SettlementRow(w, op)]
  }

  lemma WorkerSettles(w: World, op: Op)
    requires Inv(w) && (op.TimeOut? || op.Exhaust?)
    ensures Next(w, op).bank == w.bank || SettlesWith(w, op)
  {
    if Visible(w, op.build) {
      MovesCost(w, op.build);
    }
  }

  lemma OwnerSettles(w: World, op: Op)
    requires Inv(w) && (op.Delete? || op.Approve?)
    ensures Next(w, op).bank == w.bank || SettlesWith(w, op)
  {
    if Visible(w, op.build) {
      MovesCost(w, op.build);
    }
  }

  lemma SettlingStep(w: World, op: Op)
    requires Inv(w) && (op.Delete? || op.Approve? || op.TimeOut? || op.Exhaust?)
    ensures Next(w, op).bank == w.bank || SettlesWith(w, op)
    ensures Next(w, op).builds.Keys == w.builds.Keys
    ensures Next(w, op).payments == w.payments && Next(w, op).dispatched == w.dispatched
  {
    if op.TimeOut? || op.Exhaust? {
      WorkerSettles(w, op);
    } else {
      OwnerSettles(w, op);
    }
  }

  lemma InvSettle(w: World, op: Op)
    requires Inv(w) && (op.Delete? || op.Approve? || op.TimeOut? || op.Exhaust?)
    ensures Inv(Next(w, op))
  {
    StepBank(w, op);
    SettlingStep(w, op);
    var w' := Next(w, op);
    StillPaid(w, w');
    if w'.bank == w.bank {
      InvSame(w, w');
    } else {
      InvAppend(w, w', SettlementRow(w, op));
    }
  }

  lemma NotYetPaid(w: World, ref: Ref)
    requires Inv(w) && (ref in w.payments ==> w.payments[ref].status != CONFIRMED)
    ensures !HasKey(w.bank.txns, PaymentKey(ref))
  {
    forall t | t in w.bank.txns ensures t.key != PaymentKey(ref) {
      assert Shape(w, t);
    }
  }

  lemma WebhookPays(w: World, op: Op)
    requires Inv(w) && op.Webhook?
    ensures ConfirmedArePaid(Next(w, op))
    ensures Next(w, op) != w ==> op.ref in w.payments && !HasKey(w.bank.txns, PaymentKey(op.ref))
  {
    var w' := Next(w, op);
    if w' != w {
      NotYetPaid(w, op.ref);
      forall ref | ref in w'.payments && w'.payments[ref].status == CONFIRMED && w'.payments[ref].credits > 0
        ensures HasKey(w'.bank.txns, PaymentKey(ref)) {
        if ref == op.ref {
          assert w'.bank.txns[|w.bank.txns|].key == PaymentKey(ref);
        } else {
          HasKeyPrefix(w.bank.txns, w'.bank.txns, PaymentKey(ref));
        }
      }
    }
  }

  lemma InvWebhook(w: World, op: Op)
    requires Inv(w) && op.Webhook?
    ensures Inv(Next(w, op))
  {
    StepBank(w, op);
    WebhookPays(w, op);
    var w' := Next(w, op);
    if w'.bank.txns == w.bank.txns {
      InvSame(w, w');
    } else {
      InvAppend(w, w', w'.bank.txns[|w.bank.txns|]);
    }
  }

  lemma StepInv(w: World, op: Op)
    requires Inv(w)
    ensures Inv(Next(w, op))
  {
    if op.SignUp? {
      InvSignUp(w, op);
    } else if op.Start? {
      InvStart(w, op);
    } else if op.Delete? || op.Approve? || op.TimeOut? || op.Exhaust? {
      InvSettle(w, op);
    } else if op.Webhook? {
      InvWebhook(w, op);
    } else {
      StepBank(w, op);
      InvSame(w, Next(w, op));
    }
  }
}
