/** Webhook deliveries: credits are granted once per payment. */
module Payments {
  import opened Common
  import opened Ledger
  import opened LedgerLaws
  import opened Lifecycle
  import opened Settlement
  import opened SettlementExact

  /** In every run, a payment of some credits has its one GRANT row exactly when it is confirmed. */
  lemma ConfirmedIffGranted(tenants: map<TenantId, OrgId>, ops: seq<Op>, ref: Ref)
    requires ref in RunOps(Fresh(tenants), ops).payments
    ensures var w := RunOps(Fresh(tenants), ops);
      var p := w.payments[ref];
      && (p.credits > 0 ==> (p.status == CONFIRMED <==> HasKey(w.bank.txns, PaymentKey(ref))))
      && forall t | t in w.bank.txns && t.key == PaymentKey(ref) ::
           t == Txn(p.org, None, GRANT, p.credits, PaymentKey(ref))
    ensures UniqueKeys(RunOps(Fresh(tenants), ops).bank.txns)
  {
    FreshInv(tenants);
    RunInv(Fresh(tenants), ops);
    assert forall t | t in RunOps(Fresh(tenants), ops).bank.txns :: Shape(RunOps(Fresh(tenants), ops), t);
  }

  function Credits(p: Payment, org: OrgId): (n: nat) {
    if p.org == org then Max(0, p.credits) else 0
  }

  ghost function SumCredits(refs: set<Ref>, payments: map<Ref, Payment>, org: OrgId): (n: nat)
    requires refs <= payments.Keys
  {
    if refs == {} then 0 else
      var r :| r in refs;
      Credits(payments[r], org) + SumCredits(refs - {r}, payments, org)
  }

  lemma {:induction false} SumCreditsPick(refs: set<Ref>, payments: map<Ref, Payment>, org: OrgId, x: Ref)
    requires refs <= payments.Keys && x in refs
    ensures SumCredits(refs, payments, org) == Credits(payments[x], org) + SumCredits(refs - {x}, payments, org)
  {
    var r :| r in refs
      && SumCredits(refs, payments, org) == Credits(payments[r], org) + SumCredits(refs - {r}, payments, org);
    if r != x {
      SumCreditsPick(refs - {r}, payments, org, x);
      SumCreditsPick(refs - {x}, payments, org, r);
      assert refs - {r} - {x} == refs - {x} - {r};
    }
  }

  lemma {:induction false} SumCreditsDepends(refs: set<Ref>, p: map<Ref, Payment>, q: map<Ref, Payment>, org: OrgId)
    requires refs <= p.Keys && refs <= q.Keys
    requires forall r | r in refs :: Credits(p[r], org) == Credits(q[r], org)
    ensures SumCredits(refs, p, org) == SumCredits(refs, q, org)
  {
    if refs == {} {
    } else {
      var r :| r in refs;
      SumCreditsPick(refs, p, org, r);
      SumCreditsPick(refs, q, org, r);
      SumCreditsDepends(refs - {r}, p, q, org);
    }
  }

  /** A pending payment whose grant can be booked. */
  predicate Payable(w: World, ref: Ref) {
    && ref in w.payments && w.payments[ref].status == PENDING
    && (w.payments[ref].credits > 0 ==> w.payments[ref].org in w.bank.wallets)
  }

  predicate AllWebhooks(ops: seq<Op>) {
    forall op | op in ops :: op.Webhook?
  }

  /** The payable payments for which a verified confirmation arrives, in no order. */
  function Landing(w: World, ops: seq<Op>): set<Ref> {
    set op | op in ops && op.Webhook? && op.verified && op.confirmed && Payable(w, op.ref) :: op.ref
  }

  lemma OneDelivery(w: World, op: Op)
    requires Inv(w) && op.Webhook?
    ensures var w' := Next(w, op);
      if op.verified && op.confirmed && Payable(w, op.ref) then
        && w'.payments == w.payments[op.ref := w.payments[op.ref].(status := CONFIRMED)]
        && w'.bank.wallets.Keys == w.bank.wallets.Keys
        && (forall org | org in w.bank.wallets :: w'.bank.wallets[org] ==
              Wallet(w.bank.wallets[org].balance + Credits(w.payments[op.ref], org), w.bank.wallets[org].reserved))
      else w' == w
  {
    assert forall t | t in w.bank.txns :: Shape(w, t);
  }

  function Confirmed(payments: map<Ref, Payment>, refs: set<Ref>): map<Ref, Payment> {
    map ref | ref in payments :: if ref in refs then payments[ref].(status := CONFIRMED) else payments[ref]
  }

  /** Any number of deliveries, of any payments, in any order and with any repeats,
      raise each balance by the credits of the landing payments, once each: the
      result depends on the deliveries only through the set `Landing`. */
  lemma {:induction false} DeliveriesGrantOnce(w: World, ops: seq<Op>, org: OrgId)
    requires Inv(w) && AllWebhooks(ops) && org in w.bank.wallets
    ensures Landing(w, ops) <= w.payments.Keys
    ensures var w' := RunOps(w, ops);
      && org in w'.bank.wallets
      && w'.bank.wallets[org].balance
           == w.bank.wallets[org].balance + SumCredits(Landing(w, ops), w.payments, org)
      && w'.bank.wallets[org].reserved == w.bank.wallets[org].reserved
      && w'.payments == Confirmed(w.payments, Landing(w, ops))
    decreases ops
  {
    if ops == [] {
    } else {
      var op, rest := ops[0], ops[1..];
      var mid := Next(w, op);
      OneDelivery(w, op);
      StepInv(w, op);
      DeliveriesGrantOnce(mid, rest, org);
      LandingStep(w, ops);
      if mid != w {
        OneLands(w.payments, Landing(w, ops), op.ref, org);
      }
    }
  }

  /** Taking the first payment that lands out of the sum, once it is confirmed. */
  lemma OneLands(payments: map<Ref, Payment>, refs: set<Ref>, ref: Ref, org: OrgId)
    requires refs <= payments.Keys && ref in refs
    ensures var confirmed := payments[ref := payments[ref].(status := CONFIRMED)];
      && refs - {ref} <= confirmed.Keys
      && SumCredits(refs, payments, org) == Credits(payments[ref], org) + SumCredits(refs - {ref}, confirmed, org)
      && Confirmed(confirmed, refs - {ref}) == Confirmed(payments, refs)
  {
    var confirmed := payments[ref := payments[ref].(status := CONFIRMED)];
    SumCreditsPick(refs, payments, org, ref);
    SumCreditsDepends(refs - {ref}, confirmed, payments, org);
    assert refs - {ref} + {ref} == refs;
  }

  lemma LandingStep(w: World, ops: seq<Op>)
    requires Inv(w) && AllWebhooks(ops) && ops != []
    ensures var mid := Next(w, ops[0]);
      if mid == w then Landing(w, ops) == Landing(w, ops[1..])
      else
        && ops[0].ref in Landing(w, ops)
        && ops[0].ref !in Landing(mid, ops[1..])
        && Landing(w, ops) - {ops[0].ref} == Landing(mid, ops[1..])
  {
    var op, rest := ops[0], ops[1..];
    var mid := Next(w, op);
    OneDelivery(w, op);
    assert forall o :: o in ops <==> o == op || o in rest;
    forall r ensures r in Landing(w, ops)
      <==> Payable(w, r) && exists o :: o in ops && o.verified && o.confirmed && o.ref == r {
    }
  }
}
