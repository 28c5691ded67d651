# BluHands: ledger, limiters, job store, sockets and colours

A model of the parts of BluHands where state, money or time is at stake, with proofs of
what they promise. `dafny verify dfyconfig.toml` checks the whole project.

| file | models |
|---|---|
| `Ledger`, `LedgerLaws`, `LedgerEffects`, `CreditService` | the wallet rows and the append-only transaction log of the credit service |
| `Lifecycle`, `ControlPlane` | build rows, payment rows and the ledger under the API calls, the worker's sessions and the webhooks |
| `Settlement`, `SettlementExact`, `Statuses`, `Conservation`, `Payments` | the laws of that system over whole runs |
| `LifecycleEffects` | what each of its calls answers and changes, and what the calls of one build do together |
| `MemoryLimiter`, `RedisLimiter` | the two sliding-window rate limiters |
| `JobStore`, `JobStoreLaws`, `JobReplicas` | the agent's job store as interleaved coroutines, and two of them on one Redis |
| `WebSocketHook` | the reconnecting WebSocket hook |
| `Tokens`, `AuthClient`, `AuthCallers` | refresh-token rotation on the server and the single-flight refresh of the browser |
| `Hsl`, `HexColors` | brand colours, against section 4.2.4 of CSS Color Module Level 3 |
| `Executor` | one execution of a build: its statuses, its polling and its session |
| `Clarify` | the clarifying questions |
| `SecretPages`, `ChangingSecrets` | the secrets list: cursor pages, the loop that walks them, and the walk over a changing store |
| `Common`, `Strings`, `Selections` | shared helpers |

**Shape.** What the source updates in place is a class, and each of its methods is proved
to take the step that a function on plain values describes (`CreditService.Refund` takes
`RefundStep`). The laws are lemmas about those functions, over every sequence of
calls or events. What a call answers and changes is also stated without its function,
in terms of rows, balances and statuses (`LedgerEffects`, `LifecycleEffects`) or of the events of
a run (`AnswersWereTold`, `ReconnectsIff`, `RefreshUntilSpent`). Each service call, webhook delivery and worker session is one step,
because its database session commits or rolls back as a whole. Coroutines, browser
events and Redis clients interleave at every await.

**Settlement is exact.** A worker's refund uses the key `refund:{id}` and a deletion
`refund-delete:{id}`, so the log does not stop one build from being settled twice.
`SettlementExact.Guard` is a check that can be made before each step, on the build's
status and on one key: approving and deleting must not meet a build that the worker
refunded, and the worker must not refund a LIVE one. No build is ever settled twice if and
only if the guard held before every step (`SettledOnceIffGuarded`). Under the guard credits
are conserved (`GuardedRunConserves`). Without any guard they are conserved exactly
when no `max(0, ...)` clamp took effect (`ConservationExact`). The guard
is not idle: `RetriesThenDeleteRefundTwice` holds in every reachable world, and `DoubleRefundRun`
ends with a balance of 110 out of 100 granted credits.

**Where the code does less than its documentation or its names suggest, the model follows
the code and the laws say exactly when it does.**
- `delete_build` says that it hard-deletes the row; the repository sets `deleted_at`
  (`control-plane/app/db/repositories/build_run_repository.py:54-57`), so the row and
  its links from the log stay.
- `execute` writes FAILED when an attempt raises and then re-raises, and
  `control-plane/app/db/task_session.py:32-38` rolls back. A failing attempt therefore
  leaves the build QUEUED, and after the last retry the build is refunded but still QUEUED.
- A second RESERVE row for a build would make `get_reserve_for_build` raise
  (`control-plane/app/db/repositories/credit_repository.py:52-59`); the ledger models that
  error, and `Settlement` proves that no run of the control plane meets it.
- The Redis limiter bounds a positive window in full if and only if the pipeline takes effect
  at the time that its client read. When clients may lag by up to `delay`, the intervals that
  always hold at most `limit` admitted hits are exactly those no longer than the window less
  `delay` (`LongestBoundedSpan`, for every limit, window, delay and length).
- A job whose `start` is cancelled inside its first save, or whose run is cancelled before its
  first step, never reaches the `finally` that gives its slot back. It keeps the slot until
  the process restarts (`CutSlotsStay`), and on a store with one slot no further job is
  accepted (`CutFillsStore`). Once all coroutines have ended the counter is zero if and only
  if there was neither kind of cut since the last restart (`DrainsToAbandoned`).
- A replica that is asked for another one's job while it runs keeps RUNNING in its memory and
  does not ask Redis again: that is its answer until it restarts (`StaleForGood`,
  `OutcomeMissed`). Once the outcome is saved it answers it if and only if what last warmed
  its memory was read after the save or, when nothing did, Redis still holds it
  (`AnswersOutcomeIff`).
- A socket that closes with code 1000 reconnects like any other; the code only decides
  whether an error is reported.
- A close callback that gives the hook a new URL at once does not stop the reconnection to the
  old one: its timer is then pending beside a socket that may itself reconnect. The hook is
  safe throughout a run if and only if no close sets a timer in that way
  (`AtMostOneReconnects`). After a cleanup or `disconnect` no socket is made before the next
  mount if and only if the ref held the only timer (`NoneMadeIff`); `ChangedInCallback` is a
  run in which it does not.
- Clarification is not total: reading the context for the defaults raises for a consulted field
  that is neither a string nor false, and `GenerateQuestions` says exactly when.
- The secrets list over a store that changes between its requests loses nothing that stays
  (`NothingIsLost`), but a cursor whose secret is gone starts the list again
  (`LostCursorRestarts`). Its names rise, so that none comes twice, if and only if every
  cursor is still there when it is used, or nothing sorts before it
  (`RisingIffAnswerable`).
- A job that is terminal by the deadline less the latency of a poll is never reported as
  timed out, and one that is terminal any later may be (`TerminalLaterMayTimeOut`).

## Model

| member | source | states |
|---|---|---|
| LedgerLaws.RenderInjective | control-plane/app/services/build_service.py:111-116 | the key texts of different kinds or ids never collide, so one key text means one kind of call on one entity |
| LedgerLaws.CommitConsistent | control-plane/app/db/repositories/credit_repository.py:61-65 | flushing a wallet together with the row that explains it keeps every wallet equal to the replay of its log |
| LedgerLaws.StepConsistent | control-plane/app/services/credit_service.py:41-182 | every ledger call, whatever its outcome, keeps keys unique, wallets equal to the replay of the log, and balance and reserved non-negative |
| LedgerLaws.WalletIsFoldOfLog | control-plane/app/services/credit_service.py:41-182 | the same over every sequence of calls |
| LedgerLaws.BalanceIsSumOfRows | control-plane/migrations/versions/0001_initial.py:149-150 | from the empty database, after any calls, the balance is the sum of the wallet's GRANT, RESERVE and REFUND rows, without CAPTURE, and never negative |
| LedgerLaws.ConstraintsNeverFire | control-plane/migrations/versions/0001_initial.py:148-165 | with non-negative amounts the schema's constraints reject exactly a second wallet or a reused key at signup and nothing else |
| LedgerLaws.ShortfallIsSurplus | control-plane/app/services/credit_service.py:136-137 | balance + reserved + captured exceeds what was granted by exactly what the clamps swallowed |
| LedgerLaws.ShortfallZero | control-plane/app/services/credit_service.py:102-102 | the clamps swallowed nothing if and only if every settlement found its amount reserved |
| LedgerLaws.ConservationExact | control-plane/app/services/credit_service.py:99-137 | for every sequence of calls: granted = balance + reserved + captured if and only if no clamp took effect, and otherwise the organization holds more than it was granted |
| LedgerLaws.ReplaysAreInvisible | control-plane/app/services/credit_service.py:126-127 | dropping every call whose key is already recorded, wherever it stands in a run, leaves the final wallets and log the same |
| LedgerLaws.LateReplay | control-plane/app/services/credit_service.py:55-56 | a copy of an applied call at any later point of a run changes nothing |
| LedgerEffects.ReserveAccepts | control-plane/app/services/credit_service.py:55-78 | an amount is reserved exactly when the key is new and the balance holds it, all of the balance included; it moves from the balance to the reserve under one RESERVE row, and every other outcome changes nothing |
| LedgerEffects.GrantAccepts | control-plane/app/services/credit_service.py:165-182 | a grant is applied exactly for a positive amount, a new key and a wallet, and raises the balance by it; the other outcomes, and when each occurs |
| LedgerEffects.SignupOpens | control-plane/app/db/repositories/wallet_repository.py:23-45 | a first signup opens a wallet with the granted amount, or an empty one without a log row when that is not positive |
| LedgerEffects.SettleAccepts | control-plane/app/services/credit_service.py:92-97 | a capture or refund is applied exactly for a new key and a wallet, and changes nothing otherwise |
| LedgerEffects.SettlesWhatWasReserved | control-plane/app/services/credit_service.py:99-137 | whatever calls come between, a settlement moves exactly the amount reserved for its build: out of the reserve, as far as that goes, and for a refund into the balance |
| LedgerEffects.ReserveAndSettle | control-plane/app/services/credit_service.py:66-137 | reserving and refunding leaves every wallet as it was; reserving and capturing costs the amount and leaves nothing of it reserved |
| CreditServices.CreditService.AddTransaction | control-plane/app/db/repositories/credit_repository.py:61-65 | the row is appended and the wallet kept, or a constraint fails and both are as before the call |
| CreditServices.CreditService.Signup | control-plane/app/db/repositories/wallet_repository.py:23-45 | takes the ledger's signup step: one wallet per organization, an opening GRANT only for a positive amount |
| CreditServices.CreditService.Reserve | control-plane/app/services/credit_service.py:41-78 | takes the ledger's reserve step, for every outcome: replay, missing wallet, too little balance, applied |
| CreditServices.CreditService.Capture | control-plane/app/services/credit_service.py:80-116 | takes the ledger's capture step: reserved is reduced by the build's reserve, balance stays |
| CreditServices.CreditService.Refund | control-plane/app/services/credit_service.py:118-148 | takes the ledger's refund step: the build's reserve goes back to the balance |
| CreditServices.CreditService.Grant | control-plane/app/services/credit_service.py:150-182 | takes the ledger's grant step, with non-positive amounts ignored and a missing wallet an error |
| ControlPlanes.ControlPlane.SignUp | control-plane/app/services/auth_service.py:203-207 | takes the world's signup step under the key of the organization |
| ControlPlanes.ControlPlane.StartBuild | control-plane/app/services/build_service.py:87-119 | takes the world's start step, for an unknown tenant, another organization's, and an owned one |
| ControlPlanes.ControlPlane.StartOwned | control-plane/app/services/build_service.py:94-119 | a QUEUED row, its reserve and its dispatch, or nothing of them when the reserve raises |
| ControlPlanes.ControlPlane.OwnedBuild | control-plane/app/services/build_service.py:142-145 | finds exactly the visible builds of the tenant and the caller's organization |
| ControlPlanes.ControlPlane.Transition | control-plane/app/db/repositories/build_run_repository.py:39-52 | sets the status of one row and touches no other |
| ControlPlanes.ControlPlane.SoftDelete | control-plane/app/db/repositories/build_run_repository.py:54-57 | marks one row as deleted and keeps it |
| ControlPlanes.ControlPlane.CancelBuild | control-plane/app/services/build_service.py:184-196 | takes the world's cancel step, which sets CANCELLED for the owner of a build that is not terminal (`LifecycleEffects.CancelEffect`) and touches no wallet |
| ControlPlanes.ControlPlane.DeleteBuild | control-plane/app/services/build_service.py:228-255 | takes the world's delete step, and only for the owner |
| ControlPlanes.ControlPlane.DeleteOwned | control-plane/app/services/build_service.py:235-255 | cancels a build that is not terminal, refunds it under the deletion's key with errors swallowed, and soft-deletes it |
| ControlPlanes.ControlPlane.RefundCancelled | control-plane/app/services/build_service.py:245-253 | refunds only cancelled builds of non-zero cost |
| ControlPlanes.ControlPlane.ApproveBuild | control-plane/app/services/build_service.py:283-301 | takes the world's approve step: REVIEW to LIVE with a capture, or nothing |
| ControlPlanes.ControlPlane.ForceFailAndRefund | control-plane/app/tasks/build_tasks.py:122-139 | takes the world's time-out step: FAILED unless already failed or cancelled, then the worker's refund; both or neither |
| ControlPlanes.ControlPlane.RefundCredits | control-plane/app/tasks/build_tasks.py:153-165 | takes the world's exhaustion step: the worker's refund with the status untouched |
| ControlPlanes.ControlPlane.RefundBuild | control-plane/app/tasks/build_tasks.py:158-165 | the worker's refund goes to the organization of the build's tenant, under the worker's key, if the tenant exists |
| ControlPlanes.ControlPlane.CreateCheckout | control-plane/app/services/payment_service.py:78-87 | takes the world's checkout step: a PENDING row |
| ControlPlanes.ControlPlane.HandleWebhook | control-plane/app/services/payment_service.py:108-128 | takes the world's webhook step: CONFIRMED with its grant, or nothing |
| Settlement.MovesCost | control-plane/app/services/credit_service.py:133-134 | in every reachable world a started build has exactly one RESERVE row, and settling it moves exactly the cost on its row |
| Settlement.StepFrame | control-plane/app/services/build_service.py:94-106 | no step changes the owner or cost of a build, takes back a confirmation or removes a wallet |
| Settlement.SettlingStep | control-plane/app/services/build_service.py:245-255 | a deletion, approval or worker refund appends at most one row, of the build's cost and under its own key, and touches no other build |
| Settlement.StepInv | control-plane/app/services/build_service.py:106-119 | every step keeps: each row of the log is what its key says, each build has its one RESERVE row, each confirmed payment its grant, and dispatched builds exist |
| SettlementExact.FiresExactly | control-plane/app/services/build_service.py:235-255 | exactly when a settling step appends its row |
| SettlementExact.OnlyOneKey | control-plane/app/services/build_service.py:293-297 | a build that is settled once and captured has neither refund key in the log |
| SettlementExact.GuardIsExact | control-plane/app/services/build_service.py:245-253 | one step keeps every build settled at most once if and only if the guard held before it |
| SettlementExact.StepSettlements | control-plane/app/services/build_service.py:293-301 | a guarded step keeps captures in step with LIVE builds and deletion refunds in step with deleted ones |
| SettlementExact.RunExact | control-plane/app/tasks/build_tasks.py:127-139 | over any run from any reachable world without a doubly settled build, none is settled twice if and only if every step was guarded |
| SettlementExact.SettledOnceIffGuarded | control-plane/app/services/build_service.py:247-251 | for every run from the empty database: no build has two settlement rows if and only if the guard held before each step |
| SettlementExact.GuardedRunSettles | control-plane/app/services/build_service.py:293-301 | after a guarded run a dispatched build has its one RESERVE row of its cost, a capture exactly when it is LIVE, and then no refund |
| SettlementExact.PoliteIsGuarded | control-plane/app/tasks/build_tasks.py:127-128 | worker refunds that hit only pre-terminal or failed builds and leave them FAILED satisfy the guard in every run |
| SettlementExact.PoliteRunSettlesOnce | control-plane/app/tasks/build_tasks.py:127-139 | so no run from the empty database with such worker refunds settles a build twice |
| Statuses.StatusMoves | control-plane/app/services/build_service.py:235-255 | a step moves a status only along the edges of the lifecycle and only that of its own build; a deleted row never changes again |
| Statuses.ApprovalsAreExact | control-plane/app/services/build_service.py:288-301 | in every reachable world an owner's approval succeeds exactly in REVIEW, because the ledger never refuses the capture; then the build is LIVE and its capture is in the log |
| Statuses.TerminalIsFinal | control-plane/app/services/build_service.py:182-192 | in a guarded run a terminal status never changes again |
| Statuses.LiveWasApproved | control-plane/app/services/build_service.py:288-301 | in every run a build that is LIVE was approved while in REVIEW |
| Conservation.OutstandingSettle | control-plane/app/services/credit_service.py:133-137 | settling a build takes its reserves, and nothing else, out of the sum of unsettled reserves |
| Conservation.RunBalanced | control-plane/app/services/credit_service.py:66-67 | in a guarded run `reserved` stays the sum of the unsettled reserves and no clamp takes effect |
| Conservation.GuardedRunConserves | control-plane/app/services/credit_service.py:102-137 | after every guarded run: granted = balance + reserved + captured, reserved is the sum of the reserves of unsettled builds, no clamp ever changed a value |
| Conservation.RetriesLeaveStatus | control-plane/app/tasks/build_tasks.py:61-75 | six failing executions and the last refund leave every build row as it was, the cost back in the balance and `refund:{id}` in the log |
| Conservation.RetriesThenDeleteRefundTwice | control-plane/app/services/build_service.py:245-253 | from every reachable world, deleting a build after its retries ran out pays its cost a second time |
| Conservation.DoubleRefundRun | control-plane/app/tasks/build_tasks.py:161-165 | a run that ends with a balance of 110 out of 100 granted |
| Payments.ConfirmedIffGranted | control-plane/app/services/payment_service.py:122-128 | after any run a payment of some credits is CONFIRMED exactly when the log has its one GRANT row, of its organization and credits |
| Payments.OneDelivery | control-plane/app/services/payment_service.py:112-128 | a verified confirmation of a pending payment whose wallet exists raises one balance by its credits; every other delivery changes nothing |
| Payments.DeliveriesGrantOnce | control-plane/app/services/payment_service.py:116-117 | any number of deliveries, in any order and with any repeats, raise each balance by the credits of the confirmed payments, once per payment |
| LifecycleEffects.NotFoundIff | control-plane/app/services/build_service.py:142-145 | a call finds no build, and changes nothing, exactly when the row is missing or deleted or, for an owner, belongs to another tenant or organization |
| LifecycleEffects.CancelEffect | control-plane/app/services/build_service.py:188-196 | in every world a cancellation is answered exactly for a build that is not LIVE, FAILED or CANCELLED; then its status is CANCELLED and nothing else changed, and otherwise nothing changed |
| LifecycleEffects.CancelStopsTheBuild | control-plane/app/services/build_service.py:194-196 | in every run, guarded or not, a build whose cancellation was answered is CANCELLED ever after, so never in REVIEW or LIVE |
| LifecycleEffects.AttemptEffect | control-plane/app/tasks/build_executor.py:86-147 | an execution changes exactly a queued build that succeeds, to REVIEW |
| LifecycleEffects.DeleteEffect | control-plane/app/services/build_service.py:235-255 | in every reachable world an owner's deletion succeeds and hides the row, cancels the build unless it is terminal, and refunds its cost exactly when it is then cancelled and cost something |
| LifecycleEffects.DeletedForGood | control-plane/app/db/repositories/build_run_repository.py:54-57 | in every run a deleted row, LIVE, FAILED or free ones included, stays as it is and no call finds it again |
| LifecycleEffects.ApproveEffect | control-plane/app/services/build_service.py:288-301 | in every reachable world an approval changes exactly a build in REVIEW: it is LIVE and its cost is booked as used |
| LifecycleEffects.WorkerRefundEffect | control-plane/app/tasks/build_tasks.py:127-165 | in every reachable world a worker refund succeeds, pays the cost to the tenant's organization once, and fails the build on a time-out unless it has failed or was cancelled |
| LifecycleEffects.StartEffect | control-plane/app/services/build_service.py:87-119 | in every reachable world a build starts exactly for the owner of the tenant, a new id and a balance of at least the cost: it is QUEUED and dispatched, and the cost is reserved |
| LifecycleEffects.SignUpEffect | control-plane/app/services/auth_service.py:203-207 | in every reachable world an organization signs up exactly once and starts with what it is granted |
| LifecycleEffects.CheckoutEffect | control-plane/app/services/payment_service.py:78-87 | a checkout stores a PENDING payment of the organization and the credits it names |
| LifecycleEffects.WebhookEffect | control-plane/app/services/payment_service.py:109-128 | in every reachable world a delivery is applied exactly when it is verified and confirms a pending payment that can be granted; the reply and the change in each other case |
| LifecycleEffects.StartCancelDelete | control-plane/app/services/build_service.py:235-255 | starting, cancelling and deleting a build leaves every wallet as it was |
| LifecycleEffects.StartToLive | control-plane/app/services/build_service.py:293-301 | starting, executing and approving a build costs its price and leaves nothing of it reserved |
| LifecycleEffects.CheckoutToCredits | control-plane/app/services/payment_service.py:112-128 | a checkout and its verified confirmation raise the balance by the credits bought |
| MemoryLimiter.InMemoryRateLimiter.Hit | control-plane/app/core/rate_limit.py:39-49 | the pruning loop and the append on one key's bucket give the specified bucket and answer, other keys untouched |
| MemoryLimiter.BucketIsWindow | control-plane/app/core/rate_limit.py:43-44 | the pruned bucket is the part of all admitted hits that the window still holds |
| MemoryLimiter.KeptIsCount | control-plane/app/core/rate_limit.py:45-45 | what is left after pruning is as long as the number of admitted hits in the closed window, and at most `limit` |
| MemoryLimiter.RefinesCounting | control-plane/app/core/rate_limit.py:43-49 | for nondecreasing times and a limit of at least 1: a hit is allowed exactly when fewer than `limit` earlier admitted hits lie in its window; the bucket stays sorted |
| MemoryLimiter.RemainingIsLeft | control-plane/app/core/rate_limit.py:48-49 | what an allowance says remains is the limit less the admitted hits in the window, this one included |
| MemoryLimiter.NoLimitRaises | control-plane/app/core/rate_limit.py:45-46 | a limit of zero or less admits nothing: every hit fails on the empty bucket |
| MemoryLimiter.WindowBound | control-plane/app/core/rate_limit.py:43-49 | no closed interval of the window's length holds more than `limit` admitted hits |
| MemoryLimiter.RetryAfterIsLeast | control-plane/app/core/rate_limit.py:46-47 | on a rejection `retry_after` is the least whole number of seconds after which a hit, with none in between, is allowed |
| RedisLimiter.RedisRateLimiter.Begin | control-plane/app/core/rate_limit.py:64-76 | up to the awaited result: the atomic pipeline's step, and the count it reads |
| RedisLimiter.RedisRateLimiter.Finish | control-plane/app/core/rate_limit.py:78-81 | the rest of the hit: the removal step and a denial, or an allowance with what remains |
| RedisLimiter.StepInv | control-plane/app/core/rate_limit.py:69-81 | an admitted hit leaves the set only once it is a whole window old, in every interleaving and with the key expiring |
| RedisLimiter.AtMostLimit | control-plane/app/core/rate_limit.py:68-81 | with every interleaving of clients, removals late or never, and expiry: at most `limit` admitted hits lie in any (t-w+delay, t], the full window when no client lags |
| RedisLimiter.ExactDecision | control-plane/app/core/rate_limit.py:71-78 | a hit is admitted exactly when the admitted hits of its window and the rejected members not yet removed are together fewer than `limit` |
| RedisLimiter.CountIsExact | control-plane/app/core/rate_limit.py:69-75 | the count that a hit reads is that of the admitted hits in its window, the rejected members not yet removed, and itself |
| RedisLimiter.KeyLivesAWindow | control-plane/app/core/rate_limit.py:72-72 | while no other hit comes, the key expires once a window has passed since the pipeline ran, on the server's clock, and not before |
| RedisLimiter.CalmHitsAreExact | control-plane/app/core/rate_limit.py:74-81 | when no step falls between a pipeline and its removal, a hit is admitted exactly when fewer than `limit` earlier admitted hits lie in its window |
| RedisLimiter.LateHit | control-plane/app/core/rate_limit.py:65-76 | for every limit, window and lag: after `limit` hits and the expiry of the key, a client that read its clock early is admitted with its early time |
| RedisLimiter.LongestBoundedSpan | control-plane/app/core/rate_limit.py:64-81 | for every limit of at least 1, window, lag and length: all intervals of that length hold at most `limit` admitted hits in every run if and only if the length is at most the window less the lag |
| JobStore.Store.StartJob | agent/agent/jobs.py:118-122 | refuses at capacity, else takes the slot and notes RUNNING in memory before the first await |
| JobStore.Store.SaveToMemory | agent/agent/jobs.py:94-96 | a save is in memory before anything is awaited |
| JobStore.Store.SaveToRedis | agent/agent/jobs.py:97-103 | the awaited write reaches Redis or is lost, and nothing is raised |
| JobStore.Store.ReleaseSlot | agent/agent/jobs.py:136-137 | gives one slot back |
| JobStore.Store.CreateTask | agent/agent/jobs.py:122-126 | the run is created only once the save of RUNNING is over, written or lost, and has not begun |
| JobStore.Store.BeginRun | agent/agent/jobs.py:128-130 | a created run enters its `try` |
| JobStore.Store.RunnerReturned | agent/agent/jobs.py:136-145 | the slot is released and the outcome is in memory before the save is awaited: SUCCESS exactly when the runner succeeded, with its URL and error |
| JobStore.Store.RunnerRaised | agent/agent/jobs.py:131-134 | FAILED is in memory and the slot still held while the save is awaited |
| JobStore.Store.FinishSave | agent/agent/jobs.py:135-137 | a failed job releases its slot at the end of its save, another job does not release again |
| JobStore.Store.Get | agent/agent/jobs.py:153-156 | answers from memory at once, or becomes a reader of Redis |
| JobStore.Store.GetFromRedis | agent/agent/jobs.py:160-162 | reads what Redis holds at that moment, or nothing when Redis fails |
| JobStore.Store.GetEnd | agent/agent/jobs.py:163-167 | warms the memory with what was read and answers it |
| JobStoreLaws.CapacityHolds | agent/agent/jobs.py:118-137 | in every interleaving the counter is the number of accepted jobs still holding a slot, is at most the cap, and the jobs that hold none have released theirs exactly once |
| JobStoreLaws.RunAbandons | agent/agent/jobs.py:120-130 | the jobs that keep a slot without a coroutine are those cut off since the last restart, in the first save or before the first step of the run |
| JobStoreLaws.DrainsToAbandoned | agent/agent/jobs.py:120-137 | once all coroutines have ended the counter is the number of jobs cut off since the last restart, and zero if and only if every cut of either kind was followed by a restart |
| JobStoreLaws.CutSlotsStay | agent/agent/jobs.py:120-137 | without a restart no event ever gives such a slot back |
| JobStoreLaws.CutFillsStore | agent/agent/jobs.py:118-130 | for each kind of cut a run that leaves a store with one slot full, with nothing left to run |
| JobStoreLaws.TerminalIsFinal | agent/agent/jobs.py:120-145 | no step takes a terminal report out of memory within a process, and Redis loses one only by expiry |
| JobStoreLaws.TerminalStays | agent/agent/jobs.py:147-164 | in every run without a restart a job that has become terminal is answered with that report ever after |
| JobStoreLaws.AnswersAreFromThePast | agent/agent/jobs.py:94-103 | whatever writes fail, expire or are cut off by restarts, an answer is one that the job once had |
| JobStoreLaws.ReadersAnswerFromThePast | agent/agent/jobs.py:155-167 | the same for a reader suspended between its read and its return |
| JobStoreLaws.RestartKeepsAnswers | agent/agent/jobs.py:94-103 | when Redis loses nothing, a restart between saves changes no answer |
| JobStoreLaws.AnswersWereTold | agent/agent/jobs.py:131-145 | in every run an answer was told to the store by an earlier event of the job: a SUCCESS by a runner that returned success with that URL and error, a FAILED by one that returned failure with them or raised that message, a RUNNING by the start |
| JobStoreLaws.ReadersWereTold | agent/agent/jobs.py:160-164 | the same of what a suspended reader is about to answer |
| JobStoreLaws.ReturnIsAnswered | agent/agent/jobs.py:138-145 | from the runner's return until a restart the answer is SUCCESS if and only if it succeeded, FAILED otherwise, with its URL and error |
| JobStoreLaws.RaiseIsAnswered | agent/agent/jobs.py:131-134 | from the runner's failure until a restart the answer is FAILED with its message |
| JobStoreLaws.OtherEventsKeepAnswers | agent/agent/jobs.py:94-103 | no other event changes the answer for a job than its own start, return or failure, an expiry, a restart, or a reader that warms the memory with it |
| JobStoreLaws.SavesWriteMemory | agent/agent/jobs.py:96-103 | a save that reaches Redis writes what memory holds of the job at that moment, and a lost one changes nothing |
| JobStoreLaws.StartsUpToTheCap | agent/agent/jobs.py:118-122 | in every run a start is refused, and changes nothing, exactly when as many jobs hold a slot as `max_concurrent`, at least one, allows; an accepted job holds one and is answered as RUNNING |
| JobStoreLaws.SlotsAreReleased | agent/agent/jobs.py:136-137 | the slot is given back at the runner's return or cancellation, and after its failure at the end of the save |
| JobStoreLaws.GetAnswers | agent/agent/jobs.py:153-167 | a read past a memory miss answers what Redis holds, if it works, keeps it in memory and leaves nothing behind |
| JobReplicas.PlayInv | agent/agent/jobs.py:94-103 | every step of either replica keeps: each copy of a job's status is the one of the moment when it was read |
| JobReplicas.AnswersOutcomeIff | agent/agent/jobs.py:147-167 | in every interleaving of two replicas, once the outcome of one's job is saved the other answers it if and only if its memory was last warmed by a read after the save or, unwarmed, Redis still holds it; otherwise RUNNING or nothing |
| JobReplicas.StaleForGood | agent/agent/jobs.py:153-164 | a replica whose memory was warmed with another's job, with no read of it under way, gives that answer until it restarts |
| JobReplicas.OutcomeMissed | agent/agent/jobs.py:153-164 | a run that ends with the success in Redis and RUNNING as the other replica's answer |
| WebSocketHook.Hook.ConnectWebSocket | frontend/src/hooks/use-websocket.ts:60-63 | makes a socket, makes it current and allows it to reconnect |
| WebSocketHook.Hook.OnMount | frontend/src/hooks/use-websocket.ts:137-145 | takes the mount step: flag and attempts are reset, blank URLs connect nothing |
| WebSocketHook.Hook.OnCleanup | frontend/src/hooks/use-websocket.ts:147-171 | takes the cleanup step |
| WebSocketHook.Hook.DisconnectAll | frontend/src/hooks/use-websocket.ts:183-195 | takes the disconnect step: flag down, timer cleared, current socket no longer allowed and closing |
| WebSocketHook.Hook.CloseSocket | frontend/src/hooks/use-websocket.ts:163-168 | closes a connecting or open socket and leaves any other alone |
| WebSocketHook.Hook.OnOpen | frontend/src/hooks/use-websocket.ts:65-69 | takes the open step: the attempts start again at zero |
| WebSocketHook.Hook.RunCallbacks | frontend/src/hooks/use-websocket.ts:102-106 | takes the acts of the user's callbacks in order: disconnects, cleanups and mounts |
| WebSocketHook.Hook.OnClose | frontend/src/hooks/use-websocket.ts:89-129 | takes the close step with the permission read before the callbacks and the flag and attempts after them, whatever these do to the hook, and reports an error exactly for other codes than 1000 of an allowed socket |
| WebSocketHook.Hook.OnTimer | frontend/src/hooks/use-websocket.ts:123-125 | takes the timer step: connects to the URL of its closure |
| WebSocketHook.StopInv | frontend/src/hooks/use-websocket.ts:150-168 | stopping leaves no timer and no socket whose close could set one |
| WebSocketHook.StepInv | frontend/src/hooks/use-websocket.ts:89-195 | every event but a close that sets a timer after its callbacks mounted the hook anew keeps the invariant behind the laws below |
| WebSocketHook.AtMostOneReconnects | frontend/src/hooks/use-websocket.ts:89-129 | for every run: no close ever sets a timer after its callbacks mounted the hook anew if and only if at every moment at most one unclosed socket may reconnect, it is current and has the mounted URL, at most one timer is pending, the ref can clear it, and then no socket may reconnect |
| WebSocketHook.NoneMadeIff | frontend/src/hooks/use-websocket.ts:147-195 | in any state: no socket is made between a cleanup or disconnect and the next mount, whatever old sockets and timers do, if and only if the ref held the only timer |
| WebSocketHook.NoneMadeUntilMount | frontend/src/hooks/use-websocket.ts:147-195 | which holds in every run without such a close |
| WebSocketHook.ChangedInCallback | frontend/src/hooks/use-websocket.ts:106-125 | for any two URLs a run with such a close, after which a cleanup does not stop the first URL's timer |
| WebSocketHook.OldSocketsOnlyClose | frontend/src/hooks/use-websocket.ts:159-161 | in runs without such a close: the close of a socket that is not current only closes it, even after the flag is up again |
| WebSocketHook.SocketsBetweenOpens | frontend/src/hooks/use-websocket.ts:110-125 | in runs without such a close and with a fixed maxAttempts, at most that many sockets are made after an open until the next, and one more before the first |
| WebSocketHook.ReconnectsIff | frontend/src/hooks/use-websocket.ts:108-125 | in every run, from its events alone, exactly when a close sets a timer: reconnecting is enabled, no cleanup or disconnect came while the socket was current, the last act on the hook was a mount, and fewer timers than the maximum were set since the last open or mount; it is one timer, for the URL of the socket, and the ref holds it |
| WebSocketHook.RunIds | frontend/src/hooks/use-websocket.ts:69-69 | in every run the attempts are the timers set since the last open or mount, the flag says whether the last act was a mount, and a socket may reconnect unless a cleanup or disconnect came while it was current |
| WebSocketHook.FireReconnects | frontend/src/hooks/use-websocket.ts:123-125 | a timer that fires makes one socket for its URL, which is current and may reconnect |
| WebSocketHook.MountConnects | frontend/src/hooks/use-websocket.ts:137-145 | a mount makes one such socket for a URL that is not blank, and none for a blank one |
| WebSocketHook.StopCloses | frontend/src/hooks/use-websocket.ts:147-195 | a stop closes the current socket, if it is connecting or open, and no other, and clears the timer of the ref |
| WebSocketHook.SocketStates | frontend/src/hooks/use-websocket.ts:65-89 | an open makes a socket OPEN, its peer's close CLOSING, and a closed socket never changes again |
| Tokens.InMemoryTokenBlocklist.IsBlocked | control-plane/app/core/security.py:206-213 | true exactly up to the entry's end, and an ended entry is dropped by the read |
| Tokens.InMemoryTokenBlocklist.Block | control-plane/app/core/security.py:203-204 | the entry ends its lifetime after the moment of revocation |
| Tokens.AuthService.IssueTokens | control-plane/app/core/security.py:144-155 | the access token expires its lifetime after the whole second of issue, and the refresh token its own |
| Tokens.AuthService.RefreshTokens | control-plane/app/services/auth_service.py:287-303 | takes the refresh step: exchanges exactly a live, unrevoked refresh token of an active user, and revokes it |
| Tokens.AuthService.LogOut | control-plane/app/services/auth_service.py:315-325 | takes the logout step: the session's id is revoked, and the refresh token's if it decodes |
| Tokens.EntryOutlivesToken | control-plane/app/services/auth_service.py:297-298 | an entry ends no earlier than its token expires, although its length is cut to whole seconds |
| Tokens.SpentStaysSpent | control-plane/app/services/auth_service.py:289-290 | from any reachable state a spent token is never exchanged again |
| Tokens.SingleUse | control-plane/app/services/auth_service.py:287-303 | for either blocklist and every run no refresh token is exchanged twice |
| Tokens.NoneAfterLogout | control-plane/app/services/auth_service.py:318-325 | none is exchanged after a logout that presented it |
| Tokens.LogoutEndsRefresh | control-plane/app/services/auth_service.py:318-325 | so a refresh token handed to a logout is exchanged by no later call |
| Tokens.IssuedUntil | control-plane/app/core/security.py:103-113 | whatever issues a pair, the access token decodes until the access lifetime after the whole second of issue is over, the refresh token until the refresh lifetime is, and neither as the other |
| Tokens.RefreshUntilSpent | control-plane/app/services/auth_service.py:287-303 | in every run the refresh token of a login or an exchange is exchanged for an active user at every time before its lifetime ends and at none from then on, as long as nobody exchanged or presented it |
| Tokens.AccessUntilLogout | control-plane/app/api/v1/dependencies/auth.py:57-61 | in every run an access token passes the decoding and the blocklist exactly until its lifetime ends or its session is logged out |
| Tokens.RevokedFor | control-plane/app/core/security.py:203-235 | a revoked id stays blocked exactly for the whole seconds its token had left, at least one; Redis drops the entry in the last instant, the in-process list after it |
| AuthClient.AuthModule.SetSession | frontend/src/lib/auth.ts:35-38 | keeps the token and its end in milliseconds |
| AuthClient.AuthModule.ClearSession | frontend/src/lib/auth.ts:41-44 | forgets both |
| AuthClient.AuthModule.RefreshTokens | frontend/src/lib/auth.ts:131-149 | joins the promise in flight or sends one request with the cookie of that moment |
| AuthClient.AuthModule.AccessTokenFor | frontend/src/lib/auth.ts:155-160 | answers a token that is fresh beyond the skew, else refreshes |
| AuthClient.AuthModule.OnResponse | frontend/src/lib/auth.ts:135-143 | success stores the session and the new cookie, failure clears the session |
| AuthClient.StepInv | frontend/src/lib/auth.ts:131-160 | every event, the steps of the server's other clients included, keeps: one promise, its callers and results in step, and a cookie that was neither rotated nor revoked |
| AuthClient.LoginStartsSession | control-plane/app/services/auth_service.py:268-276 | whatever the server went through, logouts included, a login gives a session to which the laws below apply |
| AuthClient.SingleFlight | frontend/src/lib/auth.ts:131-149 | from any reachable server and in every interleaving with its other clients: at most one request is outstanding, all callers of one promise get the same result, no request carries a rotated token |
| AuthClient.RefusedOnlyWhenExpired | control-plane/app/services/auth_service.py:287-294 | a request is answered with tokens exactly when its cookie holds an unexpired token of an active user; rotation never refuses it |
| AuthCallers.AnsweredAtOnceIff | frontend/src/lib/auth.ts:155-160 | in every run a caller is given a token at once exactly when the last answer that arrived brought one and its lifetime less thirty seconds is not over; it is that token, and any other caller joins a promise |
| AuthCallers.JoinsOrSends | frontend/src/lib/auth.ts:131-134 | a caller who joins shares the request that is out, or sends one with the cookie |
| AuthCallers.AllAreAnswered | frontend/src/lib/auth.ts:135-146 | when an answer has arrived and its promise is settled, all who joined it were given its access token, or nothing after a refusal, and nothing is in flight |
| AuthCallers.NoneIsReached | frontend/src/lib/auth.ts:139-146 | a request that never arrives ends like a refusal: no session, and nothing for those who joined it |
| Hsl.ExtremesRecovered | agent/agent/brand.py:38-39 | the rendering recovers the largest and smallest channel from lightness and saturation |
| Hsl.ExactInverse | agent/agent/brand.py:31-46 | for all real channels in [0,1], rendering the unrounded result gives back exactly the colour |
| Hsl.HslInRange | agent/agent/brand.py:35-46 | hue, saturation and lightness lie in [0,1] |
| Hsl.HueIsCanonical | agent/agent/brand.py:35-46 | the hue is less than a full turn, and a grey has hue and saturation zero |
| Hsl.RoundedInRange | agent/agent/brand.py:48-48 | the integers lie in [0,360], [0,100] and [0,100] |
| Hsl.RoundIsNearest | agent/agent/brand.py:48-48 | rounding gives the nearest integer, and of two equally near ones the even one |
| Hsl.TripletIsHsl | agent/agent/brand.py:48-48 | the integers are the hue in degrees, then saturation and lightness in per cent, each within one half; a grey is its lightness |
| Hsl.RoundedRenderingIsNear | agent/agent/brand.py:31-48 | rendering the rounded integers gives every channel within 1/48 < 6/255, hues that round to 360 included |
| HexColors.ShortForm | agent/agent/brand.py:25-27 | three digits, in any mixture of cases, with any number of `#`s before them and white space around, mean each digit twice |
| HexColors.SixDigits | agent/agent/brand.py:24-48 | the round trip: a colour written in six digits from its three bytes is read as those bytes over 255, and the result is in the ranges of the documentation and renders within 6/255 of them |
| HexColors.DigitIsRead | agent/agent/brand.py:31-31 | the sixteen digits are read as the numbers they are written for, in either case |
| HexColors.HexToHslIsFaithful | agent/agent/brand.py:24-29 | a text is a colour if and only if it is three or six hexadecimal digits, of either case, with any number of `#`s before them and white space around; any other text raises |
| Executor.PollUntilDone | control-plane/app/tasks/build_executor.py:157-170 | reports success exactly when the last poll was answered with success, failure exactly for failure, raises exactly when it raised, and else times out, with work in hand at or after 1380 seconds; all earlier polls were answered with work in hand before; at most 139 polls |
| Executor.TerminalByDeadlineIsSeen | control-plane/app/tasks/build_executor.py:159-170 | with answers at most `latency` old a job terminal by the deadline less `latency` is never reported as timed out; by the deadline itself when polls are instantaneous |
| Executor.TerminalLaterMayTimeOut | control-plane/app/tasks/build_executor.py:165-170 | for every later time there are answers and a clock with which the job is reported as timed out |
| Executor.BoundIsReached | control-plane/app/tasks/build_executor.py:165-170 | 139 polls do occur |
| Executor.BuildTaskExecutor.Transition | control-plane/app/tasks/build_executor.py:195-202 | writes a status exactly from its one predecessor |
| Executor.BuildTaskExecutor.Fail | control-plane/app/tasks/build_executor.py:208-225 | FAILED is written unless that raises, which is swallowed |
| Executor.BuildTaskExecutor.Pipeline | control-plane/app/tasks/build_executor.py:95-147 | for any set of calls that raise, how many statuses of the chain are written, and that it completes exactly when nothing raises and the poll reports success |
| Executor.BuildTaskExecutor.Execute | control-plane/app/tasks/build_executor.py:86-151 | completes exactly when nothing but the write of FAILED would raise and some poll is answered with success after only work in hand before the deadline; exactly which statuses are written, each if and only if no call before it raises and, from TESTING on, such a poll exists; FAILED exactly when it raised and could write it; other builds than QUEUED are left alone |
| Executor.ExecuteInSession | control-plane/app/db/task_session.py:31-38 | only a completed execution commits, from QUEUED to REVIEW, which is the world's execution step |
| Clarify.SlugIdempotent | agent/agent/clarify.py:50-53 | validating an id twice is validating it once, and the ids that stay are exactly the slugs, for any lower-casing that leaves lower-case slugs alone |
| Clarify.SlugIs | agent/agent/clarify.py:50-53 | the slug of any id is its lower-cased text without the underscores, blanks and other marks around it, its inner gaps collapsed |
| Clarify.SlugOfMarks | agent/agent/clarify.py:53-53 | an id of such marks only becomes "q" |
| Clarify.CollapseJoins | agent/agent/clarify.py:53-53 | a gap of any characters between two words becomes one underscore, and a word stays as it is |
| Clarify.TrimOptions | agent/agent/clarify.py:55-66 | keeps the first of each option but for case, in order, without blanks, at most six, for any lower-casing |
| Clarify.Construct | agent/agent/clarify.py:38-66 | building a question passes its id and options through the validators |
| Clarify.OptionsAreDistinct | agent/agent/clarify.py:58-66 | the options are distinct but for case and at most six |
| Clarify.CleanedAre | agent/agent/clarify.py:61-62 | the options considered are those that are not blank, in order, stripped |
| Clarify.OptionsAre | agent/agent/clarify.py:66-66 | of the first of each the first six are kept |
| Clarify.FirstsDistinct | agent/agent/clarify.py:334-339 | the duplicate filter leaves distinct keys and loses none |
| Clarify.FirstsAre | agent/agent/clarify.py:334-339 | what the duplicate filter keeps are exactly the elements whose key no earlier element has, in order |
| Clarify.Collect | agent/agent/clarify.py:332-332 | one rejected object makes parsing raise; entries that are no objects are skipped |
| Clarify.RejectedIff | agent/agent/clarify.py:38-42 | an object is rejected exactly for a wrong type or kind, an empty text, or an id that is empty or longer than 64 characters |
| Clarify.QuestionsAre | agent/agent/clarify.py:332-332 | the questions are those of the objects, in order, with text and kind as given and id and options as validated |
| Clarify.KeepFirst | agent/agent/clarify.py:334-339 | keeps the first question of each id, in order |
| Clarify.ParseLlm | agent/agent/clarify.py:330-340 | gives the first question of each id in order, cut at the cap, or raises |
| Clarify.ReadRaisesIff | agent/agent/clarify.py:90-102 | reading the context raises exactly for an ecommerce industry and a field that is consulted and neither a string nor false: a colour before any that has text, the first truthy name or tone, any product name |
| Clarify.ContextTells | agent/agent/clarify.py:90-104 | what the context tells: the name and the tone when the first truthy of their two fields has text, a colour when any field has |
| Clarify.ProductNamesAre | agent/agent/clarify.py:198-198 | the product names are those that have text, in order, stripped |
| Clarify.ShopIsAsked | agent/agent/clarify.py:151-223 | a shop is asked for its name, colours and tone exactly when they are missing, which products to feature when there are any, and always what matters most, in this order |
| Clarify.AppIsAsked | agent/agent/clarify.py:226-265 | any other app is asked the same four questions |
| Clarify.DefaultsArePresentable | agent/agent/clarify.py:135-265 | the defaults are between one and the cap, valid, with distinct ids, for every context that was read |
| Clarify.DefaultsAsk | agent/agent/clarify.py:223-265 | the defaults are the first of these entries, up to the cap, as questions with the same ids, texts and kinds |
| Clarify.GenerateQuestions | agent/agent/clarify.py:343-390 | whatever the model does: nothing on a detailed prompt, else between one and min(max, 5) valid questions with distinct ids, the model's when it gave any and the defaults when not; it raises exactly when the defaults are needed and reading their context raises |
| SecretPages.SecretServer.Create | frontend/src/mocks/secrets-handlers.ts:84-92 | sets the entry of a non-empty name, else nothing |
| SecretPages.SecretServer.Update | frontend/src/mocks/secrets-handlers.ts:106-121 | moves a known secret to its new name with its value, replaces what was there, and touches no other |
| SecretPages.SecretServer.Delete | frontend/src/mocks/secrets-handlers.ts:142-151 | removes the entry |
| SecretPages.SecretServer.SearchSecrets | frontend/src/mocks/secrets-handlers.ts:28-67 | the page of the filtered, sorted list that follows the cursor |
| SecretPages.SortSorts | frontend/src/mocks/secrets-handlers.ts:43-43 | the sorted list is in order and holds the same secrets |
| SecretPages.SortIsStable | frontend/src/mocks/secrets-handlers.ts:43-43 | of two secrets the first stays first unless it sorts strictly after the other |
| SecretPages.FilteredAre | frontend/src/mocks/secrets-handlers.ts:35-40 | a search keeps exactly the secrets whose name contains the text in any case, in order |
| SecretPages.IncludesIff | frontend/src/mocks/secrets-handlers.ts:35-41 | a text contains a part exactly when it is something, that part, and something |
| SecretPages.PageAfter | frontend/src/mocks/secrets-handlers.ts:46-64 | with the last name as cursor the next page continues without gap or repeat, and gives a cursor exactly when more follow |
| SecretPages.SecretServer.FetchPages | frontend/src/api/secrets-service.ts:43-56 | over whatever the map holds at each request the loop collects the walk of the pages and ends with the first answer without a cursor |
| SecretPages.SecretServer.GetSecrets | frontend/src/api/secrets-service.ts:41-59 | over an unchanging store the loop ends with every secret exactly once, in name order, after the least number of requests of a hundred |
| SecretPages.LostCursorRestarts | frontend/src/mocks/secrets-handlers.ts:47-52 | a cursor that is not in the list gives the first page again |
| ChangingSecrets.ContinuesIffAnswerable | frontend/src/mocks/secrets-handlers.ts:46-54 | one request continues after its cursor if and only if the cursor's secret is there or nothing sorts before it |
| ChangingSecrets.NothingIsLost | frontend/src/api/secrets-service.ts:47-56 | whatever changes between the requests, a secret that is there at each of them is listed once the walk has passed its name |
| ChangingSecrets.RisingIffAnswerable | frontend/src/api/secrets-service.ts:47-56 | whatever changes, the names rise strictly if and only if every cursor could be continued from |
| ChangingSecrets.DeletedCursorBreaksOrder | frontend/src/mocks/secrets-handlers.ts:142-151 | deleting the cursor's secret between two requests breaks that order, for any store of more than one page |

## Left out

- The database, Redis, HTTP, Celery, the LLM and the sandbox: maps, atomic steps and arbitrary answers stand for them.
- Audit writes: they do not touch the modelled state. `control-plane/app/services/payment_service.py:89` and line 130 there use a name that the file does not import; the model takes these calls as returning.
- Two sessions on one build row at the same time, and a worker that starts before the API call has committed: each call is one step.
- Deleting tenants, organizations and wallets; the nulling of a build link when a row is removed for good; ADJUST rows; the payment statuses other than PENDING and CONFIRMED; UPDATING, which no modelled step writes.
- A negative build cost: the setting is taken as a natural number.
- The preview URL, the conversation id, custom domains, the GitHub context and other fields that no modelled branch reads.
- Signatures, JWT encoding, password hashing and JSON parsing: their verdicts are inputs.
- A `refresh` call is one step at one clock reading: two refreshes of one token that overlap at the await between the check and the revocation are not modelled.
- The refresh client has one cookie and no login or logout of its own while it lives, every response is delivered, and nobody else shows its refresh token to the server. What other clients do there is arbitrary.
- Redis limiter: one key with a fixed limit and window; members are unique, and a member's text is not modelled.
- Job store: a Redis write that is still under way at a restart is dropped, not applied later; time to live is an expiry at any moment; `run_sync` is left out.
- WebSocketHook.OldSocketsOnlyClose: for runs without a close that sets a timer after its callbacks mounted the hook anew, as are `NoneMadeUntilMount` and `SocketsBetweenOpens`; after such a close two sockets may be allowed to reconnect.
- WebSocket hook: query parameters, the authentication frame, messages and the display state; a mount without a cleanup before the next one does not occur.
- Colours: reals instead of floating point; `css_var_line`, `_readable_foreground`, `_set_var` and `apply_brand`, which edit text.
- Clarify: the lower-casing is any function that leaves lower-case letters, digits and underscores alone; the verdict of `_is_detailed` is an input; `allow_other` and `help`, the prompt texts and `apply_answers` are not modelled.
- SecretPages.SecretServer.SearchSecrets: the list of the map's values is an input in any order, the order of `localeCompare` any total one, and the sort a stable one on values, because the in-place sort is the runtime's; a negative or unreadable limit is not modelled.
- ChangingSecrets: the laws over a changing store take an order in which different names sort apart.
- Metrics, roles, schemas, the other mocks, rendering, settings and navigation: one-branch facts.
