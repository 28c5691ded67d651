/**
 What each call on the control plane answers and changes, and what the calls of one
 build do to the wallet together.
 */
module LifecycleEffects {
  import opened Common
  import opened Ledger
  import opened LedgerLaws
  import opened LedgerEffects
  import opened Lifecycle
  import opened Settlement
  import opened Statuses

  // ----------------------------------------------------------- who is answered

  predicate OwnerCall(op: Op) {
    op.Cancel? || op.Delete? || op.Approve?
  }

  predicate WorkerCall(op: Op) {
    op.Attempt? || op.TimeOut? || op.Exhaust?
  }

  /** A caller is told that there is no such build exactly when the row is missing or deleted
      or belongs to another tenant, or the tenant to another organization; nothing
      changes then. The worker only needs the row. */
  lemma NotFoundIff(w: World, op: Op)
    requires OwnerCall(op) || WorkerCall(op)
    ensures var (w', reply) := OpStep(w, op);
      && (reply == NotFound ==> w' == w)
      && (reply == NotFound <==>
            || op.build !in w.builds
            || w.builds[op.build].deleted
            || (OwnerCall(op) && w.builds[op.build].tenant != op.tenant)
            || (OwnerCall(op) && (op.tenant !in w.tenants || w.tenants[op.tenant] != op.org)))
  {
  }

  // ---------------------------------------------------------- the build's status

  /** Nothing changes but the status of one build. */
  predicate OnlyStatus(w: World, w': World, b: BuildId, st: Status)
    requires b in w.builds
  {
    w' == w.(builds := w.builds[b := w.builds[b].(status := st)])
  }

  /** Cancelling is answered for every build that is not terminal, and cancels it. */
  lemma CancelEffect(w: World, b: BuildId, tenant: TenantId, org: OrgId)
    requires Owned(w, b, tenant, org)
    ensures var (w', reply) := OpStep(w, Cancel(b, tenant, org));
      && (reply == Invalid <==> w.builds[b].status in {LIVE, FAILED, CANCELLED})
      && (reply == Done <==> w.builds[b].status !in {LIVE, FAILED, CANCELLED})
      && (reply == Done ==> OnlyStatus(w, w', b, CANCELLED))
      && (reply != Done ==> w' == w)
  {
  }

  /** An execution moves a queued build to REVIEW when it succeeds, and does nothing else. */
  lemma AttemptEffect(w: World, b: BuildId, succeeds: bool)
    requires Visible(w, b)
    ensures var (w', reply) := OpStep(w, Attempt(b, succeeds));
      && (reply == Done <==> w.builds[b].status == QUEUED && succeeds)
      && (reply == Done ==> OnlyStatus(w, w', b, REVIEW))
      && (reply != Done ==> reply == Invalid && w' == w)
  {
  }

  /** A build that was cancelled stays so in every run, and goes to REVIEW or LIVE in none. */
  lemma {:induction false} CancelledForGood(w: World, ops: seq<Op>, b: BuildId)
    requires b in w.builds && w.builds[b].status == CANCELLED
    ensures b in RunOps(w, ops).builds && RunOps(w, ops).builds[b].status == CANCELLED
    decreases ops
  {
    if ops == [] {
    } else {
      StatusMoves(w, ops[0], b);
      CancelledForGood(Next(w, ops[0]), ops[1..], b);
    }
  }

  /** So whatever comes after an accepted cancellation, the build never runs or goes live. */
  lemma CancelStopsTheBuild(w: World, b: BuildId, tenant: TenantId, org: OrgId, ops: seq<Op>)
    requires OpStep(w, Cancel(b, tenant, org)).1 == Done
    ensures var w' := RunOps(Next(w, Cancel(b, tenant, org)), ops);
      b in w'.builds && w'.builds[b].status == CANCELLED
  {
    NotFoundIff(w, Cancel(b, tenant, org));
    CancelEffect(w, b, tenant, org);
    CancelledForGood(Next(w, Cancel(b, tenant, org)), ops, b);
  }

  // ------------------------------------------------------------- money and status

  /** Only the row of one build and the ledger change. */
  predicate OnlyBuild(w: World, w': World, b: BuildId, row: Build) {
    w' == w.(builds := w.builds[b := row], bank := w'.bank)
  }

  /** The ledger releases the cost of the build, unless the key is booked already. */
  predicate Settled(w: World, w': World, c: Call, cost: int)
    requires LedgerEffects.Settles(c) && c.org in w.bank.wallets
  {
    if HasKey(w.bank.txns, c.key) then w'.bank == w.bank else Released(w.bank, w'.bank, c, cost)
  }

  lemma SettleEffect(w: World, c: Call)
    requires Inv(w) && LedgerEffects.Settles(c) && c.build in w.builds
    ensures w.builds[c.build].tenant in w.tenants && OrgOf(w, c.build) in w.bank.wallets
    ensures c.org in w.bank.wallets ==>
      var (bank, o) := Step(w.bank, c);
      && o == (if HasKey(w.bank.txns, c.key) then Replayed else Applied)
      && (if o == Replayed then bank == w.bank else Released(w.bank, bank, c, w.builds[c.build].cost))
  {
    MovesCost(w, c.build);
    assert ReservedOnce(w, c.build);
    SettleAccepts(w.bank, c);
    if c.org in w.bank.wallets && !HasKey(w.bank.txns, c.key) {
      SettleReleases(w.bank, c, ReserveRows(w.bank.txns, c.build)[0], w.builds[c.build].cost);
    }
  }

  /** Deleting always succeeds for the owner, hides the row, cancels the build unless it is
      terminal, and refunds its cost if it is then cancelled. */
  lemma DeleteEffect(w: World, b: BuildId, tenant: TenantId, org: OrgId)
    requires Inv(w) && Owned(w, b, tenant, org)
    ensures org in w.bank.wallets
    ensures var (w', reply) := OpStep(w, Delete(b, tenant, org));
      var row := w.builds[b];
      var kept := row.status in {LIVE, FAILED, CANCELLED};
      && reply == Done
      && OnlyBuild(w, w', b, row.(status := if kept then row.status else CANCELLED, deleted := true))
      && (if row.status in {LIVE, FAILED} || row.cost == 0 then w'.bank == w.bank
          else Settled(w, w', Refund(org, b, RefundDeleteKey(b)), row.cost))
  {
    SettleEffect(w, Refund(org, b, RefundDeleteKey(b)));
  }

  /** An owner's approval takes a build in REVIEW live and books its cost as used. */
  lemma ApproveEffect(w: World, b: BuildId, tenant: TenantId, org: OrgId)
    requires Inv(w) && Owned(w, b, tenant, org)
    ensures org in w.bank.wallets
    ensures var (w', reply) := OpStep(w, Approve(b, tenant, org));
      && (reply == Done <==> w.builds[b].status == REVIEW)
      && (reply != Done ==> reply == Invalid && w' == w)
      && (reply == Done ==>
            && OnlyBuild(w, w', b, w.builds[b].(status := LIVE))
            && Settled(w, w', Capture(org, b, CaptureKey(b)), w.builds[b].cost))
  {
    SettleEffect(w, Capture(org, b, CaptureKey(b)));
  }

  /** The worker's refunds always succeed; on a time-out the build fails, unless it has
      failed or was cancelled. */
  lemma WorkerRefundEffect(w: World, op: Op)
    requires Inv(w) && (op.TimeOut? || op.Exhaust?) && Visible(w, op.build)
    ensures w.builds[op.build].tenant in w.tenants && OrgOf(w, op.build) in w.bank.wallets
    ensures var (w', reply) := OpStep(w, op);
      var row := w.builds[op.build];
      && reply == Done
      && OnlyBuild(w, w', op.build,
                   if op.Exhaust? || row.status in {FAILED, CANCELLED} then row else row.(status := FAILED))
      && Settled(w, w', Refund(OrgOf(w, op.build), op.build, RefundKey(op.build)), row.cost)
  {
    MovesCost(w, op.build);
    SettleEffect(w, Refund(OrgOf(w, op.build), op.build, RefundKey(op.build)));
  }

  /** A build is started for the owner of the tenant exactly when its id is new and the wallet
      holds the cost; it is queued and dispatched, and the cost reserved. */
  lemma StartEffect(w: World, b: BuildId, tenant: TenantId, org: OrgId, cost: nat)
    requires Inv(w)
    ensures var (w', reply) := OpStep(w, Start(b, tenant, org, cost));
      var price: int := cost;
      && (reply == NotFound <==> tenant !in w.tenants || w.tenants[tenant] != org)
      && (reply == Failed(ConstraintViolated) <==> reply != NotFound && b in w.builds)
      && (reply == Done <==>
            && tenant in w.tenants && w.tenants[tenant] == org && b !in w.builds
            && org in w.bank.wallets && price <= w.bank.wallets[org].balance)
      && (reply != Done ==> w' == w && reply in {NotFound, Failed(ConstraintViolated), Failed(InsufficientCredits)})
      && (reply == Done ==>
            && w' == w.(builds := w.builds[b := Build(tenant, QUEUED, price, false)],
                        dispatched := w.dispatched + [b], bank := w'.bank)
            && Books(w.bank, w'.bank, -price, price, Txn(org, Some(b), RESERVE, -price, ReserveKey(b))))
  {
    ReserveAccepts(w.bank, org, cost, b, ReserveKey(b));
    if b !in w.builds {
      NotReserved(w, b);
    }
  }

  /** Each organization signs up once, and starts with what it is granted. */
  lemma SignUpEffect(w: World, org: OrgId, credits: int)
    requires Inv(w)
    ensures var (w', reply) := OpStep(w, SignUp(org, credits));
      && (reply == Done <==> org !in w.bank.wallets)
      && (reply != Done ==> w' == w)
      && (reply == Done ==>
            && w' == w.(bank := w'.bank)
            && w'.bank.wallets == w.bank.wallets[org := Wallet(if credits > 0 then credits else 0, 0)])
  {
    SignupOpens(w.bank, org, credits, SignupKey(org));
    forall t | t in w.bank.txns ensures t.key == SignupKey(org) ==> org in w.bank.wallets {
      assert Shape(w, t);
    }
  }

  // -------------------------------------------------------------------- payments

  /** A checkout stores a pending payment of the organization and the credits it names. */
  lemma CheckoutEffect(w: World, ref: Ref, org: OrgId, credits: int)
    ensures var (w', reply) := OpStep(w, Checkout(ref, org, credits));
      && (reply == Done <==> ref !in w.payments)
      && (reply != Done ==> reply == Failed(ConstraintViolated) && w' == w)
      && (reply == Done ==> w' == w.(payments := w.payments[ref := Payment(org, PENDING, credits)]))
  {
  }

  /** A delivery is applied exactly when it is verified and confirms a pending payment that
      can be granted. */
  lemma WebhookEffect(w: World, ref: Ref, verified: bool, confirmed: bool)
    requires Inv(w)
    ensures var (w', reply) := OpStep(w, Webhook(ref, verified, confirmed));
      var pending := ref in w.payments && w.payments[ref].status == PENDING;
      && (reply == Unverified <==> !verified)
      && (reply == NotApplied <==> verified && !(confirmed && pending))
      && (reply == Done <==>
            && verified && confirmed && pending
            && (w.payments[ref].credits > 0 ==> w.payments[ref].org in w.bank.wallets))
      && (reply != Done ==> w' == w && reply in {Unverified, NotApplied, Failed(NoWallet)})
      && (reply == Done ==>
            var p := w.payments[ref];
            && w' == w.(payments := w.payments[ref := p.(status := CONFIRMED)], bank := w'.bank)
            && (if p.credits <= 0 then w'.bank == w.bank
                else Books(w.bank, w'.bank, p.credits, 0, Txn(p.org, None, GRANT, p.credits, PaymentKey(ref)))))
  {
    if ref in w.payments {
      GrantAccepts(w.bank, w.payments[ref].org, w.payments[ref].credits, PaymentKey(ref));
      if w.payments[ref].status == PENDING {
        NotYetPaid(w, ref);
      }
    }
  }

  // ------------------------------------------------------------------ life stories

  lemma NewBuildIsUnsettled(w: World, b: BuildId, t: Txn, key: Key)
    requires Inv(w) && b !in w.builds && t.key == ReserveKey(b)
    requires key in {CaptureKey(b), RefundKey(b), RefundDeleteKey(b)}
    ensures !HasKey(w.bank.txns + [t], key)
  {
    forall u | u in w.bank.txns ensures u.key != key {
      assert Shape(w, u);
    }
    OtherKey(w.bank.txns, t, key);
  }

  /** Starting, cancelling and deleting a build leaves every wallet as it was. */
  lemma StartCancelDelete(w: World, b: BuildId, tenant: TenantId, org: OrgId, cost: nat)
    requires Inv(w) && OpStep(w, Start(b, tenant, org, cost)).1 == Done
    ensures var started := Next(w, Start(b, tenant, org, cost));
      var cancelled := Next(started, Cancel(b, tenant, org));
      var (w', reply) := OpStep(cancelled, Delete(b, tenant, org));
      reply == Done && w'.bank.wallets == w.bank.wallets
  {
    var price: int := cost;
    var t := Txn(org, Some(b), RESERVE, -price, ReserveKey(b));
    var started := Next(w, Start(b, tenant, org, cost));
    StartEffect(w, b, tenant, org, cost);
    StepInv(w, Start(b, tenant, org, cost));
    CancelEffect(started, b, tenant, org);
    StepInv(started, Cancel(b, tenant, org));
    var cancelled := Next(started, Cancel(b, tenant, org));
    DeleteEffect(cancelled, b, tenant, org);
    NewBuildIsUnsettled(w, b, t, RefundDeleteKey(b));
    assert w.bank.wallets[org].reserved >= 0;
    if price != 0 {
      var w' := Next(cancelled, Delete(b, tenant, org));
      SettledAtOnce(w.bank, started.bank, w'.bank, Refund(org, b, RefundDeleteKey(b)), price, t);
    }
  }

  lemma StartToReview(w: World, b: BuildId, tenant: TenantId, org: OrgId, cost: nat)
    requires Inv(w) && OpStep(w, Start(b, tenant, org, cost)).1 == Done
    ensures var built := Next(Next(w, Start(b, tenant, org, cost)), Attempt(b, true));
      var price: int := cost;
      && Inv(built) && Owned(built, b, tenant, org) && b !in w.builds
      && built.builds == w.builds[b := Build(tenant, REVIEW, price, false)]
      && Books(w.bank, built.bank, -price, price, Txn(org, Some(b), RESERVE, -price, ReserveKey(b)))
  {
    var started := Next(w, Start(b, tenant, org, cost));
    StartEffect(w, b, tenant, org, cost);
    StepInv(w, Start(b, tenant, org, cost));
    AttemptEffect(started, b, true);
    StepInv(started, Attempt(b, true));
  }

  lemma ApprovedAtOnce(w: World, built: World, b: BuildId, tenant: TenantId, org: OrgId, price: int, t: Txn)
    requires Inv(built) && Owned(built, b, tenant, org)
    requires built.builds[b].status == REVIEW && built.builds[b].cost == price
    requires t.wallet == org && Books(w.bank, built.bank, -price, price, t) && w.bank.wallets[org].reserved >= 0
    requires !HasKey(built.bank.txns, CaptureKey(b))
    ensures var (w', reply) := OpStep(built, Approve(b, tenant, org));
      var wallet := w.bank.wallets[org];
      && reply == Done
      && w'.builds == built.builds[b := built.builds[b].(status := LIVE)]
      && w'.bank.wallets == w.bank.wallets[org := wallet.(balance := wallet.balance - price)]
  {
    MovesCost(built, b);
    ApproveEffect(built, b, tenant, org);
    var w' := Next(built, Approve(b, tenant, org));
    SettledAtOnce(w.bank, built.bank, w'.bank, Capture(org, b, CaptureKey(b)), price, t);
  }

  /** Starting, executing and approving a build costs its price, and nothing of it stays
      reserved. */
  lemma StartToLive(w: World, b: BuildId, tenant: TenantId, org: OrgId, cost: nat)
    requires Inv(w) && OpStep(w, Start(b, tenant, org, cost)).1 == Done
    ensures org in w.bank.wallets
    ensures var built := Next(Next(w, Start(b, tenant, org, cost)), Attempt(b, true));
      var (w', reply) := OpStep(built, Approve(b, tenant, org));
      var wallet := w.bank.wallets[org];
      && reply == Done
      && w'.builds == w.builds[b := Build(tenant, LIVE, cost, false)]
      && w'.bank.wallets == w.bank.wallets[org := wallet.(balance := wallet.balance - cost)]
  {
    var price: int := cost;
    var t := Txn(org, Some(b), RESERVE, -price, ReserveKey(b));
    StartToReview(w, b, tenant, org, cost);
    NewBuildIsUnsettled(w, b, t, CaptureKey(b));
    assert w.bank.wallets[org].reserved >= 0;
    ApprovedAtOnce(w, Next(Next(w, Start(b, tenant, org, cost)), Attempt(b, true)), b, tenant, org, price, t);
  }

  /** A checkout and its verified confirmation raise the balance by the credits bought. */
  lemma CheckoutToCredits(w: World, ref: Ref, org: OrgId, credits: int)
    requires Inv(w) && ref !in w.payments && credits > 0 && org in w.bank.wallets
    ensures var ordered := Next(w, Checkout(ref, org, credits));
      var (w', reply) := OpStep(ordered, Webhook(ref, true, true));
      var wallet := w.bank.wallets[org];
      && reply == Done
      && w'.payments == w.payments[ref := Payment(org, CONFIRMED, credits)]
      && w'.bank.wallets == w.bank.wallets[org := wallet.(balance := wallet.balance + credits)]
  {
    CheckoutEffect(w, ref, org, credits);
    StepInv(w, Checkout(ref, org, credits));
    WebhookEffect(Next(w, Checkout(ref, org, credits)), ref, true, true);
  }

  /** A deleted build is never seen again: in every later world no call finds it, and the
      row stays as the deletion left it. */
  lemma {:induction false} DeletedForGood(w: World, ops: seq<Op>, b: BuildId)
    requires b in w.builds && w.builds[b].deleted
    ensures var w' := RunOps(w, ops);
      && b in w'.builds && w'.builds[b] == w.builds[b]
      && (forall op: Op | (OwnerCall(op) || WorkerCall(op)) && op.build == b :: OpStep(w', op) == (w', NotFound))
    decreases ops
  {
    if ops == [] {
      forall op: Op | (OwnerCall(op) || WorkerCall(op)) && op.build == b ensures OpStep(w, op) == (w, NotFound) {
        NotFoundIff(w, op);
      }
    } else {
      StatusMoves(w, ops[0], b);
      DeletedForGood(Next(w, ops[0]), ops[1..], b);
    }
  }
}
