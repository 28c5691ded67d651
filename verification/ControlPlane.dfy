/**
 The build service, the worker's sessions and the payment service over mutable
 rows. Each method runs in a session of its own: it returns normally and commits,
 or it raises and leaves every row as it was. Each is specified by the step of the
 same name in `Lifecycle`, whose laws are in the settlement modules.
 */
module ControlPlanes {
  import L = Ledger
  import opened Lifecycle
  import opened CreditServices

  class ControlPlane {
    const credits: CreditService
    var tenants: map<TenantId, L.OrgId>
    var builds: map<L.BuildId, Build>
    var payments: map<Ref, Payment>
    var dispatched: seq<L.BuildId>

    ghost function View(): World
      reads this, credits, credits.wallets.Values
    {
      World(credits.View(), tenants, builds, payments, dispatched)
    }

    constructor (tenants: map<TenantId, L.OrgId>)
      ensures credits.Valid() && fresh(credits) && credits.wallets == map[]
      ensures View() == Fresh(tenants)
    {
      var c := new CreditService();
      credits := c;
      this.tenants := tenants;
      builds := map[];
      payments := map[];
      dispatched := [];
    }

    method Transition(b: L.BuildId, to: Status)
      requires b in builds
      modifies this`builds
      ensures builds == old(builds)[b := old(builds)[b].(status := to)]
    {
      builds := builds[b := builds[b].(status := to)];
    }

    /** The row that `get_build` and the tenant check let through. */
    method OwnedBuild(b: L.BuildId, tenant: TenantId, org: L.OrgId) returns (found: bool)
      ensures found == Owned(View(), b, tenant, org)
    {
      if b !in builds || builds[b].deleted || builds[b].tenant != tenant {
        return false;
      }
      found := tenant in tenants && tenants[tenant] == org;
    }

    method SignUp(org: L.OrgId, amount: int) returns (reply: Reply)
      requires credits.Valid()
      modifies credits
      ensures credits.Valid()
      ensures (View(), reply) == SignUpStep(old(View()), org, amount)
    {
      var o := credits.Signup(org, amount, L.SignupKey(org));
      reply := if o == L.Applied then Done else Failed(o);
    }

    method StartBuild(b: L.BuildId, tenant: TenantId, org: L.OrgId, cost: nat) returns (reply: Reply)
      requires credits.Valid()
      modifies this`builds, this`dispatched, credits`txns, credits.wallets.Values
      ensures credits.Valid()
      ensures (View(), reply) == StartStep(old(View()), b, tenant, org, cost)
    {
      if tenant !in tenants || tenants[tenant] != org {
        return NotFound;
      }
      if b in builds {
        return Failed(L.ConstraintViolated);
      }
      reply := StartOwned(b, tenant, org, cost);
    }

    /** What starting a build does once the owner is known: a reserve that raises leaves neither
        the row nor a dispatch. */
    method StartOwned(b: L.BuildId, tenant: TenantId, org: L.OrgId, cost: nat) returns (reply: Reply)
      requires credits.Valid() && b !in builds
      modifies this`builds, this`dispatched, credits`txns, credits.wallets.Values
      ensures credits.Valid()
      ensures (View(), reply) == Started(old(View()), b, tenant, org, cost)
    {
      ghost var bank := credits.View();
      var before := builds;
      builds := builds[b := Build(tenant, QUEUED, cost, false)];
      assert credits.View() == bank;
      var o := credits.Reserve(org, cost, b, L.ReserveKey(b));
      assert (credits.View(), o) == L.ReserveStep(bank, org, cost, b, L.ReserveKey(b));
      if o != L.Applied && o != L.Replayed {
        builds := before;
        return Failed(o);
      }
      dispatched := dispatched + [b];
      reply := Done;
    }

    method CancelBuild(b: L.BuildId, tenant: TenantId, org: L.OrgId) returns (reply: Reply)
      requires credits.Valid()
      modifies this`builds
      ensures (View(), reply) == CancelStep(old(View()), b, tenant, org)
    {
      var found := OwnedBuild(b, tenant, org);
      if !found {
        return NotFound;
      }
      if Terminal(builds[b].status) {
        return Invalid;
      }
      Transition(b, CANCELLED);
      reply := Done;
    }

    method DeleteBuild(b: L.BuildId, tenant: TenantId, org: L.OrgId) returns (reply: Reply)
      requires credits.Valid()
      modifies this`builds, credits`txns, credits.wallets.Values
      ensures credits.Valid()
      ensures (View(), reply) == DeleteStep(old(View()), b, tenant, org)
    {
      var found := OwnedBuild(b, tenant, org);
      if !found {
        return NotFound;
      }
      DeleteOwned(b, org);
      reply := Done;
    }

    /** What a deletion does once the owner is known. */
    method DeleteOwned(b: L.BuildId, org: L.OrgId)
      requires credits.Valid() && b in builds
      modifies this`builds, credits`txns, credits.wallets.Values
      ensures credits.Valid()
      ensures View() == Deleted(old(View()), b, org)
    {
      if !Terminal(builds[b].status) {
        Transition(b, CANCELLED);
      }
      RefundCancelled(b, org);
      SoftDelete(b);
      assert builds == old(builds)[b := builds[b]];
    }

    method SoftDelete(b: L.BuildId)
      requires b in builds
      modifies this`builds
      ensures builds == old(builds)[b := old(builds)[b].(deleted := true)]
    {
      builds := builds[b := builds[b].(deleted := true)];
    }

    /** The refund of a deletion; whatever it raises is swallowed. */
    method RefundCancelled(b: L.BuildId, org: L.OrgId)
      requires credits.Valid() && b in builds
      modifies credits`txns, credits.wallets.Values
      ensures credits.Valid()
      ensures credits.View() ==
        if builds[b].status == CANCELLED && builds[b].cost != 0
        then L.RefundStep(old(credits.View()), org, b, L.RefundDeleteKey(b)).0 else old(credits.View())
    {
      if builds[b].status == CANCELLED && builds[b].cost != 0 {
        var _ := credits.Refund(org, b, L.RefundDeleteKey(b));
      }
    }

    method ApproveBuild(b: L.BuildId, tenant: TenantId, org: L.OrgId) returns (reply: Reply)
      requires credits.Valid()
      modifies this`builds, credits`txns, credits.wallets.Values
      ensures credits.Valid()
      ensures (View(), reply) == ApproveStep(old(View()), b, tenant, org)
    {
      var found := OwnedBuild(b, tenant, org);
      if !found {
        return NotFound;
      }
      if builds[b].status != REVIEW {
        return Invalid;
      }
      var o := credits.Capture(org, b, L.CaptureKey(b));
      if o !in {L.Applied, L.Replayed, L.Ignored} {
        return Failed(o);
      }
      Transition(b, LIVE);
      reply := Done;
    }

    /** Force-fails a build and refunds it, on the worker's soft time limit. */
    method ForceFailAndRefund(b: L.BuildId) returns (reply: Reply)
      requires credits.Valid()
      modifies this`builds, credits`txns, credits.wallets.Values
      ensures credits.Valid()
      ensures (View(), reply) == TimeOutStep(old(View()), b)
    {
      if b !in builds || builds[b].deleted {
        return NotFound;
      }
      var before := builds;
      if builds[b].status !in {FAILED, CANCELLED} {
        Transition(b, FAILED);
      }
      reply := RefundBuild(b);
      if reply.Failed? {
        builds := before;
      }
    }

    /** Refunds a build whose retries are exhausted; its status stays. */
    method RefundCredits(b: L.BuildId) returns (reply: Reply)
      requires credits.Valid()
      modifies credits`txns, credits.wallets.Values
      ensures credits.Valid()
      ensures (View(), reply) == ExhaustStep(old(View()), b)
    {
      if b !in builds || builds[b].deleted {
        return NotFound;
      }
      reply := RefundBuild(b);
      assert builds[b := builds[b]] == builds;
    }

    method RefundBuild(b: L.BuildId) returns (reply: Reply)
      requires credits.Valid() && b in builds
      modifies credits`txns, credits.wallets.Values
      ensures credits.Valid()
      ensures (View(), reply) == WorkerRefund(old(View()), b, old(builds)[b])
    {
      assert builds[b := builds[b]] == builds;
      var tenant := builds[b].tenant;
      if tenant !in tenants {
        return Done;
      }
      var o := credits.Refund(tenants[tenant], b, L.RefundKey(b));
      reply := if o in {L.Applied, L.Replayed, L.Ignored} then Done else Failed(o);
    }

    method CreateCheckout(ref: Ref, org: L.OrgId, amount: int) returns (reply: Reply)
      requires credits.Valid()
      modifies this`payments
      ensures (View(), reply) == CheckoutStep(old(View()), ref, org, amount)
    {
      if ref in payments {
        return Failed(L.ConstraintViolated);
      }
      payments := payments[ref := Payment(org, PENDING, amount)];
      reply := Done;
    }

    method HandleWebhook(ref: Ref, verified: bool, confirmed: bool) returns (reply: Reply)
      requires credits.Valid()
      modifies this`payments, credits`txns, credits.wallets.Values
      ensures credits.Valid()
      ensures (View(), reply) == WebhookStep(old(View()), ref, verified, confirmed)
    {
      if !verified {
        return Unverified;
      }
      if ref !in payments || payments[ref].status == CONFIRMED || !confirmed {
        return NotApplied;
      }
      var before, p := payments, payments[ref];
      payments := payments[ref := p.(status := CONFIRMED)];
      var o := credits.Grant(p.org, p.credits, L.PaymentKey(ref));
      if o !in {L.Applied, L.Replayed, L.Ignored} {
        payments := before;
        return Failed(o);
      }
      reply := Done;
    }
  }
}
