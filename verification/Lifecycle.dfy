/**
 Build runs, payments and the ledger together. Every API call, webhook delivery and
 worker session is one atomic step of a `World`, because its database session
 commits or rolls back as a whole.
 */
module Lifecycle {
  import opened Ledger

  type TenantId = string
  type Ref = string

  datatype Status =
    QUEUED | PROVISIONING | BUILDING | TESTING | REVIEW | LIVE | UPDATING | FAILED | CANCELLED

  predicate Terminal(st: Status) {
    st in {LIVE, FAILED, CANCELLED}
  }

  /** A build row. Deleting is setting `deleted`; the row and its links stay. */
  datatype Build = Build(tenant: TenantId, status: Status, cost: int, deleted: bool)

  datatype PaymentStatus = PENDING | CONFIRMED

  datatype Payment = Payment(org: OrgId, status: PaymentStatus, credits: int)

  datatype World = World(
    bank: State,
    tenants: map<TenantId, OrgId>,
    builds: map<BuildId, Build>,
    payments: map<Ref, Payment>,
    dispatched: seq<BuildId>)

  function Fresh(tenants: map<TenantId, OrgId>): World {
    World(EMPTY, tenants, map[], map[], [])
  }

  datatype Reply =
    | Done
    | NotFound
    | Invalid             // the build is not in a state that allows the call
    | Unverified          // webhook signature rejected
    | NotApplied          // webhook ignored
    | Failed(why: Outcome)

  datatype Op =
    | SignUp(org: OrgId, credits: int)
    | Start(build: BuildId, tenant: TenantId, org: OrgId, cost: nat)
    | Cancel(build: BuildId, tenant: TenantId, org: OrgId)
    | Delete(build: BuildId, tenant: TenantId, org: OrgId)
    | Approve(build: BuildId, tenant: TenantId, org: OrgId)
    | Attempt(build: BuildId, succeeds: bool)  // one execution of the build task
    | TimeOut(build: BuildId)                  // soft time limit: force-fail and refund
    | Exhaust(build: BuildId)                  // last retry failed: refund
    | Checkout(ref: Ref, org: OrgId, credits: int)
    | Webhook(ref: Ref, verified: bool, confirmed: bool)

  /** A row that the repositories return: present and not soft-deleted. */
  predicate Visible(w: World, b: BuildId) {
    b in w.builds && !w.builds[b].deleted
  }

  /** The ownership check of the API: the build is the tenant's and the tenant the caller's. */
  predicate Owned(w: World, b: BuildId, tenant: TenantId, org: OrgId) {
    && Visible(w, b)
    && w.builds[b].tenant == tenant
    && tenant in w.tenants
    && w.tenants[tenant] == org
  }

  function WithBuild(w: World, b: BuildId, row: Build): World {
    w.(builds := w.builds[b := row])
  }

  function SignUpStep(w: World, org: OrgId, credits: int): (World, Reply) {
    var (bank, o) := SignupStep(w.bank, org, credits, SignupKey(org));
    if o == Applied then (w.(bank := bank), Done) else (w, Failed(o))
  }

  function StartStep(w: World, b: BuildId, tenant: TenantId, org: OrgId, cost: nat): (World, Reply) {
    if tenant !in w.tenants || w.tenants[tenant] != org then (w, NotFound)
    else if b in w.builds then (w, Failed(ConstraintViolated))
    else Started(w, b, tenant, org, cost)
  }

  function Started(w: World, b: BuildId, tenant: TenantId, org: OrgId, cost: nat): (World, Reply) {
    var (bank, o) := ReserveStep(w.bank, org, cost, b, ReserveKey(b));
    if o == Applied || o == Replayed
    then (WithBuild(w, b, Build(tenant, QUEUED, cost, false)).(bank := bank, dispatched := w.dispatched + [b]), Done)
    else (w, Failed(o))
  }

  function CancelStep(w: World, b: BuildId, tenant: TenantId, org: OrgId): (World, Reply) {
    if !Owned(w, b, tenant, org) then (w, NotFound)
    else if Terminal(w.builds[b].status) then (w, Invalid)
    else (WithBuild(w, b, w.builds[b].(status := CANCELLED)), Done)
  }

  /** Deleting refunds a cancelled build under a key of its own; an error of the
      refund is swallowed. */
  function DeleteStep(w: World, b: BuildId, tenant: TenantId, org: OrgId): (World, Reply) {
    if !Owned(w, b, tenant, org) then (w, NotFound) else (Deleted(w, b, org), Done)
  }

  function Deleted(w: World, b: BuildId, org: OrgId): World
    requires b in w.builds
  {
    var row := w.builds[b];
    var st := if Terminal(row.status) then row.status else CANCELLED;
    var bank := if st == CANCELLED && row.cost != 0
                then RefundStep(w.bank, org, b, RefundDeleteKey(b)).0 else w.bank;
    WithBuild(w, b, row.(status := st, deleted := true)).(bank := bank)
  }

  function ApproveStep(w: World, b: BuildId, tenant: TenantId, org: OrgId): (World, Reply) {
    if !Owned(w, b, tenant, org) then (w, NotFound)
    else if w.builds[b].status != REVIEW then (w, Invalid)
    else
      var (bank, o) := CaptureStep(w.bank, org, b, CaptureKey(b));
      if o in {Applied, Replayed, Ignored}
      then (WithBuild(w, b, w.builds[b].(status := LIVE)).(bank := bank), Done)
      else (w, Failed(o))
  }

  /** An execution commits only when it reaches REVIEW: a failing one re-raises
      through its session, which rolls every status it wrote back. */
  function AttemptStep(w: World, b: BuildId, succeeds: bool): (World, Reply) {
    if !Visible(w, b) then (w, NotFound)
    else if w.builds[b].status != QUEUED || !succeeds then (w, Invalid)
    else (WithBuild(w, b, w.builds[b].(status := REVIEW)), Done)
  }

  /** The worker's refund, paid to the organization of the build's tenant. */
  function WorkerRefund(w: World, b: BuildId, row: Build): (World, Reply)
    requires b in w.builds
  {
    if row.tenant !in w.tenants then (WithBuild(w, b, row), Done)
    else
      var (bank, o) := RefundStep(w.bank, w.tenants[row.tenant], b, RefundKey(b));
      if o in {Applied, Replayed, Ignored} then (WithBuild(w, b, row).(bank := bank), Done)
      else (w, Failed(o))
  }

  function TimeOutStep(w: World, b: BuildId): (World, Reply) {
    if !Visible(w, b) then (w, NotFound)
    else
      var row := w.builds[b];
      WorkerRefund(w, b, if row.status in {FAILED, CANCELLED} then row else row.(status := FAILED))
  }

  function ExhaustStep(w: World, b: BuildId): (World, Reply) {
    if !Visible(w, b) then (w, NotFound) else WorkerRefund(w, b, w.builds[b])
  }

  function CheckoutStep(w: World, ref: Ref, org: OrgId, credits: int): (World, Reply) {
    if ref in w.payments then (w, Failed(ConstraintViolated))
    else (w.(payments := w.payments[ref := Payment(org, PENDING, credits)]), Done)
  }

  function WebhookStep(w: World, ref: Ref, verified: bool, confirmed: bool): (World, Reply) {
    if !verified then (w, Unverified)
    else if ref !in w.payments || w.payments[ref].status == CONFIRMED || !confirmed then (w, NotApplied)
    else
      var p := w.payments[ref];
      var (bank, o) := GrantStep(w.bank, p.org, p.credits, PaymentKey(ref));
      if o in {Applied, Replayed, Ignored}
      then (w.(bank := bank, payments := w.payments[ref := p.(status := CONFIRMED)]), Done)
      else (w, Failed(o))
  }

  function OpStep(w: World, op: Op): (World, Reply) {
    match op
    case SignUp(org, credits) => SignUpStep(w, org, credits)
    case Start(b, tenant, org, cost) => StartStep(w, b, tenant, org, cost)
    case Cancel(b, tenant, org) => CancelStep(w, b, tenant, org)
    case Delete(b, tenant, org) => DeleteStep(w, b, tenant, org)
    case Approve(b, tenant, org) => ApproveStep(w, b, tenant, org)
    case Attempt(b, succeeds) => AttemptStep(w, b, succeeds)
    case TimeOut(b) => TimeOutStep(w, b)
    case Exhaust(b) => ExhaustStep(w, b)
    case Checkout(ref, org, credits) => CheckoutStep(w, ref, org, credits)
    case Webhook(ref, verified, confirmed) => WebhookStep(w, ref, verified, confirmed)
  }

  function Next(w: World, op: Op): World {
    OpStep(w, op).0
  }

  function RunOps(w: World, ops: seq<Op>): World
    decreases ops
  {
    if ops == [] then w else RunOps(Next(w, ops[0]), ops[1..])
  }
}
