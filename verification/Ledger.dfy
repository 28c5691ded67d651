/**
 The credit ledger: wallets beside an append-only transaction log.

 A `State` is what the database holds for the ledger. Every service call runs in
 one session that commits or rolls back as a whole, so each call is one step
 `Step(s, call)`; a call that raises leaves the state as it was.
 */
module Ledger {
  import opened Common

  type OrgId = string
  type BuildId = string

  /** The idempotency keys that the services build; `Render` gives their text. */
  datatype Key =
    | SignupKey(org: OrgId)
    | PaymentKey(ref: string)
    | ReserveKey(build: BuildId)
    | CaptureKey(build: BuildId)
    | RefundKey(build: BuildId)
    | RefundDeleteKey(build: BuildId)

  function Render(k: Key): string {
    match k
    case SignupKey(org) => "signup:" + org
    case PaymentKey(ref) => "payment:" + ref
    case ReserveKey(b) => "reserve:" + b
    case CaptureKey(b) => "capture:" + b
    case RefundKey(b) => "refund:" + b
    case RefundDeleteKey(b) => "refund-delete:" + b
  }

  datatype Kind = GRANT | RESERVE | CAPTURE | REFUND

  datatype Txn = Txn(wallet: OrgId, build: Option<BuildId>, kind: Kind, amount: int, key: Key)

  datatype Wallet = Wallet(balance: int, reserved: int)

  datatype State = State(wallets: map<OrgId, Wallet>, txns: seq<Txn>)

  const EMPTY := State(map[], [])

  datatype Outcome =
    | Applied
    | Replayed             // the key is already in the log
    | Ignored              // non-positive grant, or no wallet left to settle
    | InsufficientCredits
    | NoWallet
    | MultipleRows         // more than one RESERVE row for a build
    | ConstraintViolated   // a CHECK or UNIQUE constraint of the schema

  datatype Call =
    | Signup(org: OrgId, amount: int, key: Key)
    | Reserve(org: OrgId, amount: int, build: BuildId, key: Key)
    | Capture(org: OrgId, build: BuildId, key: Key)
    | Refund(org: OrgId, build: BuildId, key: Key)
    | Grant(org: OrgId, amount: int, key: Key)

  predicate HasKey(txns: seq<Txn>, key: Key) {
    exists t | t in txns :: t.key == key
  }

  /** The RESERVE rows of a build, in log order. */
  function ReserveRows(txns: seq<Txn>, b: BuildId): seq<Txn> {
    if txns == [] then [] else
      var t := txns[|txns| - 1];
      var rest := ReserveRows(txns[..|txns| - 1], b);
      if t.kind == RESERVE && t.build == Some(b) then rest + [t] else rest
  }

  /** What a settlement moves: the one reserve row's amount, 0 without a row. */
  function ReservedAmount(txns: seq<Txn>, b: BuildId): (x: int)
    requires |ReserveRows(txns, b)| <= 1
    ensures x >= 0
  {
    var rows := ReserveRows(txns, b);
    if rows == [] then 0 else Abs(rows[0].amount)
  }

  /** Commits the new wallet and its log row, unless a CHECK or UNIQUE constraint fails. */
  function Commit(s: State, w: Wallet, t: Txn): (State, Outcome) {
    if w.balance < 0 || w.reserved < 0 || HasKey(s.txns, t.key) then (s, ConstraintViolated)
    else (State(s.wallets[t.wallet := w], s.txns + [t]), Applied)
  }

  /** A new wallet and, for a positive amount, its opening GRANT row. */
  function SignupStep(s: State, org: OrgId, amount: int, key: Key): (State, Outcome) {
    if org in s.wallets then (s, ConstraintViolated)
    else if amount <= 0 then (s.(wallets := s.wallets[org := Wallet(0, 0)]), Applied)
    else Commit(s, Wallet(amount, 0), Txn(org, None, GRANT, amount, key))
  }

  function ReserveStep(s: State, org: OrgId, amount: int, b: BuildId, key: Key): (State, Outcome) {
    if HasKey(s.txns, key) then (s, Replayed)
    else if org !in s.wallets || s.wallets[org].balance < amount then (s, InsufficientCredits)
    else
      var w := s.wallets[org];
      Commit(s, Wallet(w.balance - amount, w.reserved + amount), Txn(org, Some(b), RESERVE, -amount, key))
  }

  function CaptureStep(s: State, org: OrgId, b: BuildId, key: Key): (State, Outcome) {
    if HasKey(s.txns, key) then (s, Replayed)
    else if org !in s.wallets then (s, Ignored)
    else if |ReserveRows(s.txns, b)| > 1 then (s, MultipleRows)
    else
      var w, x := s.wallets[org], ReservedAmount(s.txns, b);
      Commit(s, Wallet(w.balance, Max(0, w.reserved - x)), Txn(org, Some(b), CAPTURE, -x, key))
  }

  function RefundStep(s: State, org: OrgId, b: BuildId, key: Key): (State, Outcome) {
    if HasKey(s.txns, key) then (s, Replayed)
    else if org !in s.wallets then (s, Ignored)
    else if |ReserveRows(s.txns, b)| > 1 then (s, MultipleRows)
    else
      var w, x := s.wallets[org], ReservedAmount(s.txns, b);
      Commit(s, Wallet(w.balance + x, Max(0, w.reserved - x)), Txn(org, Some(b), REFUND, x, key))
  }

  function GrantStep(s: State, org: OrgId, amount: int, key: Key): (State, Outcome) {
    if amount <= 0 then (s, Ignored)
    else if HasKey(s.txns, key) then (s, Replayed)
    else if org !in s.wallets then (s, NoWallet)
    else
      var w := s.wallets[org];
      Commit(s, Wallet(w.balance + amount, w.reserved), Txn(org, None, GRANT, amount, key))
  }

  function Step(s: State, c: Call): (State, Outcome) {
    match c
    case Signup(org, amount, key) => SignupStep(s, org, amount, key)
    case Reserve(org, amount, b, key) => ReserveStep(s, org, amount, b, key)
    case Capture(org, b, key) => CaptureStep(s, org, b, key)
    case Refund(org, b, key) => RefundStep(s, org, b, key)
    case Grant(org, amount, key) => GrantStep(s, org, amount, key)
  }

  function Run(s: State, calls: seq<Call>): State
    decreases calls
  {
    if calls == [] then s else Run(Step(s, calls[0]).0, calls[1..])
  }
}
