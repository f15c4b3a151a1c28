# Proofs about the shop's payments, coupons, sagas and outbox

The shop keeps stock per product variant, a balance per user, orders, payments, coupons and pending events in MySQL,
locks and coupon queues in Redis, and lets six orchestrators pass events to one another. This project models the parts
of it that change shared state and proves what they keep.

| file | part of the shop |
|---|---|
| `Shop.dfy` | the tables, and the payment operations as single atomic steps: conservation, ledger, life of an order |
| `Reservation.dfy` | the stock check of a payment against summed demand, and against the per-item check of `createOrder` |
| `PaymentRepository.dfy` | `PaymentRepositoryPrisma` and `BalanceRepositoryPrisma` as they run, with locks, errors and rollback |
| `Undo.dfy` | cancelling a payment, whatever was committed in between |
| `Interleaving.dfy` | any number of clients paying and cancelling, one database or lock operation at a time |
| `Completeness.dfy` | what interleaved executions can commit, exactly |
| `LockDiscipline.dfy`, `Locks.dfy` | how those clients hold, wait for and give up Redlocks |
| `Coupons.dfy` | any number of clients in `issueFcfsCoupon`, beside iterations of the issue scheduler |
| `CouponLimits.dfy` | what both paths can issue together, and exactly when that stays within the stock |
| `CouponStore.dfy` | the coupon service and the scheduler as they run |
| `Selection.dfy`, `Redis.dfy` | the Redis commands and the request queue |
| `Saga.dfy`, `Orchestrators.dfy` | the event cascades, and their handlers and dispatch as they run |
| `SagaRuns.dfy` | how the saga of an order ends, and exactly when it pays |
| `SagaChecks.dfy` | the stock checks of carts and orders, and what they report |
| `SagaSafety.dfy` | what sagas, requests and operations from outside do to the ledger, to the payments of an order, and to the sign of the rows |
| `Outbox.dfy` | the outbox and its retries |
| `Discount.dfy` | the two calculations of a coupon's discount |
| `Sums.dfy` | totals over tables |

Objects whose methods change tables step by step are classes here; each of their methods is proved against a function of
the state before it. `Shop.After`, `Saga.Handle`, `CouponStore.Handed` and `Redis.Handled` are these functions, and the
lemmas beside them say what they keep.

## Assumptions

- A Serializable transaction commits as one step or leaves everything as it was; a row that it reads or writes is locked
  until it ends.
- A Redlock has at most one holder until it is released; it does not expire.
- The unique index on `(userId, couponId)` (`prisma/schema.prisma:112`) rejects a second row.
- Amounts are integers, in units of the last stored decimal place; discounts are real numbers.
- A new payment gets an identifier that no other payment has. What an order asks for never changes.
- `finalAmount >= 0` and charges of `>= 0` are assumed only where a contract says so (`Sane`, `SaneAmounts`, and as
  an alternative in `CancelIsExactUndo`), quantities
  of at least 1 (`src/interfaces/dto/order.dto.ts:26-28`) only in `ChecksAgreeExactly` and `DuplicateOverlooked`.
- The user of an order exists (`prisma/schema.prisma:202`); `u in db.users` says so where it is needed.
- Runs of the issue scheduler do not overlap, and the clock does not go back.
- Reading the clock, failing calls, and identifiers given by the database are parameters.

## Where the code departs from its intent

The model follows the code. What goes wrong is stated as a lemma, with the condition under which it does not.

- A discount may exceed the total, and `finalAmount` is then negative; `NegativeFinalExactly` says when. While such an order
  can be paid, it can be paid, the proceeds spent, and the payment cancelled, which leaves the balance negative. So stock and
  balances stay non-negative in every sane run exactly when the total is not negative (`StaysNonNegativeExactly`), and a
  payment with its cancellation can be erased from every run exactly then too (`ErasableExactly`).
- `createOrder` checks each item alone, a payment all items of a variant together; they agree on every stock exactly when
  no variant is ordered twice (`ChecksAgreeExactly`).
- `updateOrderStatus` writes any status over any other; an order can then be paid twice: `PaidTwiceExactly`
  says when. It takes such an overwrite: sagas, controllers and the repository's own operations never pay an order twice
  (`NoOrderPaidTwice`).
- A saga for an order that is already PAID fails, and its failure makes the order CANCELLED while the payment stays COMPLETED
  (`SecondSagaCancels`). The payment controller does this to every order it pays for, if the saga that it asks for runs after
  its own payment (`ControllerCancels`); if the completion is handled last, the order is PAID again (`ControllerKeepsPaid`). It
  cannot happen while an order has at most one saga, none once it is
  paid, and no payment from outside beside its saga (`NoPaidOrderCancelled`).
- A saga that succeeds takes money and stock twice (`SuccessfulSagaTakesTwice`, `PayingSaga`): once on its own and once in
  `processPayment`. So an order is paid by its saga exactly when the balance covers twice its total and the stock covers it
  (`SagaPaysExactly`), and the second taking of the stock goes through exactly when the stock covers it twice
  (`TakenTwiceExactly`).
- A batch of the scheduler that does not commit takes back its coupons, but its users stay marked in Redis and are refused
  from then on (`RolledBackIsRefused`).
- `handlePaymentCompletion` catches nothing. If it throws before it asks for the stock, the second taking never happens and
  nothing tells; `Saga.Outcome.dropped` counts this, and `SagaBalance` holds of it all.
- A saga that starts from a cart has an order event without an identifier: it makes no order and changes no table of this
  model (`CartCheckoutChangesNothing`). The cart itself is emptied in the shop, and is not modelled.
- The balance handlers write a second history row for the same move, in another transaction than the move. If that row
  fails, the move stays and nothing gives it back; `Saga.Account` counts this separately. If it is written, its
  `afterBalance` contradicts the history: the ledger is correct after an execution exactly when no handler wrote such a row for
  an amount other than zero (`SagaLedgerExactly`).
- Every credit is recorded as a REFUND, so the ledger distinguishes only USE from the rest.
- The service path never lowers a promotion's `stockQuantity`, although
  `test/it/integration/coupon.service.integration.spec.ts:120-126` expects it to; the scheduler path does. The stock caps both
  together exactly when one of the paths is off, there is no stock, or the promotion is never on (`CapExactly`); otherwise
  each path can sell all of it (`TwiceTheStock`), and no more (`TwoPathAccounting`).
- The check for an existing coupon looks at AVAILABLE ones only; for a used one it is the unique index that refuses.
- The outbox query conjoins `status: 'INIT'` with PENDING or FAILED and selects nothing (`QueryAsWrittenSelectsNothing`).
  The loop is modelled over what the OR clause alone selects.
- The two discount calculations differ in rounding and in looking at the expiry date (`DiscountsAgreeExactly`); for
  whole totals and percentages they agree on a coupon in date exactly when a hundred divides their product
  (`WholeDiscountsAgreeExactly`).

## Model

| member | source | states |
|---|---|---|
| `Shop.StepConserves` | src/domain/payment/repository/payment.repository.prisma.ts:36-66 | for every row: what it holds plus what COMPLETED payments took moves only by charges and direct deductions |
| `Shop.PayConserves` | src/domain/payment/repository/payment.repository.prisma.ts:36-84 | a payment moves stock and money from the rows into the account of the new COMPLETED payment, nothing else |
| `Shop.CancelConserves` | src/domain/payment/repository/payment.repository.prisma.ts:107-146 | a cancellation moves them back, also when it has to create the balance row |
| `Shop.RunConserves` | src/domain/balance/repository/balance.repository.prisma.ts:23-106 | the same over any run of operations, failed ones included: stock and balances are conserved |
| `Shop.RunNonNegative` | src/domain/payment/repository/payment.repository.prisma.ts:44-46 | with no negative amount coming in, no stock and no balance ever gets negative |
| `Shop.StaysNonNegativeExactly` | src/domain/order/service/order.service.ts:86 | while an order can be paid and all else is sane, no sane run makes a row negative if and only if the order's total is not negative |
| `Shop.SpentAndCancelled` | src/domain/payment/repository/payment.repository.prisma.ts:124-133 | every payable order of negative total can be paid, its proceeds spent and the payment cancelled, which leaves the balance at the negative amount |
| `Shop.LedgerStep` | src/domain/balance/repository/balance.repository.prisma.ts:92-103 | an operation keeps every `afterBalance` equal to the replay of the history so far, and the balance equal to the whole replay |
| `Shop.RunLedger` | src/domain/balance/repository/balance.repository.prisma.ts:36-65 | the history replays to the balance, row by row, after any run, for every user |
| `Shop.RunOwned` | prisma/schema.prisma:49 | over any run every order, balance and history belongs to an existing user |
| `Shop.PayLifecycle` | src/domain/payment/repository/payment.repository.prisma.ts:26-29 | a payment finds its order without any payment and leaves it PAID with exactly one, COMPLETED |
| `Shop.CancelLifecycle` | src/domain/payment/repository/payment.repository.prisma.ts:103-146 | a cancellation leaves the order CANCELLED with its only payment CANCELLED |
| `Shop.CreateLifecycle` | src/domain/order/service/order.service.ts:89-107 | a new order is PENDING and has no payment |
| `Shop.RunLifecycle` | src/domain/payment/repository/payment.repository.prisma.ts:70-84 | over any run each order has at most one payment ever: none while PENDING, one COMPLETED while PAID, one CANCELLED once CANCELLED |
| `Shop.OverwrittenPayable` | src/domain/payment/repository/payment.repository.prisma.ts:26-29 | after an overwrite an order can be paid if and only if its status says neither PAID nor CANCELLED and its user can afford it |
| `Shop.PaidTwiceExactly` | src/domain/order/service/order.service.ts:176-183 | after an overwrite an order gets a second payment if and only if it had one, its status says neither PAID nor CANCELLED, and it can be afforded again |
| `Reservation.AffordableExtend` | src/domain/payment/repository/payment.repository.prisma.ts:44-46 | the check of one more item succeeds exactly when the summed demand up to it is covered, and its failure is final |
| `Reservation.ItemOrderIrrelevant` | src/domain/payment/repository/payment.repository.prisma.ts:36-54 | neither success nor the stock left depends on the order of the items |
| `Reservation.ChecksAgreeExactly` | src/domain/order/service/order.service.ts:40-43 | the per-item check and the summed check agree on every stock if and only if no variant is ordered twice |
| `Reservation.DuplicateOverlooked` | src/domain/order/service/order.service.ts:40-43 | with a variant ordered twice some stock passes every per-item check and fails the payment |
| `Reservation.AffordableImpliesCovered` | src/domain/order/service/order.service.ts:40-43 | what a payment can take, `createOrder` accepts |
| `Reservation.CreatedExactly` | src/domain/order/service/order.service.ts:32-43 | an order is created if and only if it is new, its user exists, it starts PENDING, and each item alone is in stock |
| `Reservation.CreatedIsPayable` | src/domain/order/service/order.service.ts:32-107 | an order of distinct variants, once created, can be paid if and only if the balance covers it |
| `Reservation.PayableIsCreated` | src/domain/order/service/order.service.ts:32-107 | whatever can be paid can be created first |
| `PaymentRepository.PaymentRepository.ProcessPayment` | src/domain/payment/repository/payment.repository.prisma.ts:17-93 | all or nothing: succeeds if and only if guards, summed stock, balance and free locks all allow it; then exactly the atomic payment, otherwise no table changes; which guard, item, lock or balance refuses; all locks released |
| `PaymentRepository.OneRefusal` | src/domain/payment/repository/payment.repository.prisma.ts:36-66 | a payment whose guards hold is refused for one reason only |
| `PaymentRepository.PaymentRepository.PayInTransaction` | src/domain/payment/repository/payment.repository.prisma.ts:21-85 | the body of the transaction: order of the guards, item loop, balance, payment and order rows |
| `PaymentRepository.PaymentRepository.DecrementStock` | src/domain/payment/repository/payment.repository.prisma.ts:36-54 | the loop succeeds if and only if the summed demand of every variant is in stock and its locks are free; otherwise at which item it stops, and why |
| `PaymentRepository.PaymentRepository.CancelPayment` | src/domain/payment/repository/payment.repository.prisma.ts:95-155 | all or nothing for cancellations, with the guard that refuses and all locks released |
| `PaymentRepository.PaymentRepository.CancelInTransaction` | src/domain/payment/repository/payment.repository.prisma.ts:99-149 | the body of the cancelling transaction |
| `PaymentRepository.PaymentRepository.IncrementStock` | src/domain/payment/repository/payment.repository.prisma.ts:112-122 | the reverse loop gives back the summed demand, and fails only on a missing row or a held lock |
| `PaymentRepository.PaymentRepository.TakeFor` | src/domain/payment/repository/payment.repository.prisma.ts:36-66 | stock and then money of an order are taken if and only if the order's whole demand is covered |
| `PaymentRepository.PaymentRepository.ChargeBalance` | src/domain/balance/repository/balance.repository.prisma.ts:23-66 | credits an existing user, creating a missing row, and logs the new balance |
| `PaymentRepository.PaymentRepository.DeductBalance` | src/domain/balance/repository/balance.repository.prisma.ts:77-106 | debits and logs exactly when the row exists and covers the amount, and says which failed |
| `Undo.CancelIsExactUndo` | src/domain/payment/repository/payment.repository.prisma.ts:112-133 | erasing a payment and its later cancellation from any committed run leaves a committed run with the same stock, balances, other orders and other payments |
| `Undo.ErasableExactly` | src/domain/payment/repository/payment.repository.prisma.ts:112-133 | a payment and its cancellation can be erased without trace from every committed run if and only if the amount is not negative |
| `Undo.ErasedStep` | src/domain/payment/repository/payment.repository.prisma.ts:36-63 | whatever commits after a payment commits without it, and keeps the difference to exactly what the payment withholds |
| `Undo.OthersElsewhere` | src/domain/payment/repository/payment.repository.prisma.ts:103-105 | nothing that commits later, other than its own cancellation, concerns the paid order |
| `Interleaving.StepRefines` | src/domain/payment/repository/payment.repository.prisma.ts:17-155 | each step of any client is, on the committed rows, nothing or one successful atomic operation, and keeps locks, undo information and guards in order |
| `Interleaving.ExecutionRefines` | src/domain/payment/repository/payment.repository.prisma.ts:17-155 | any interleaving, with any aborts, is a run of successful atomic operations |
| `Interleaving.CommitIsAtomic` | src/domain/payment/repository/payment.repository.prisma.ts:68-84 | at its commit a transaction has done item by item what the atomic operation does at once, history included |
| `Interleaving.InterleavedConservation` | src/domain/payment/repository/payment.repository.prisma.ts:36-54 | in every intermediate state: row in place, less what is in flight, plus what COMPLETED payments took, is what there was and what came from outside |
| `Interleaving.InterleavedNonNegative` | src/domain/payment/repository/payment.repository.prisma.ts:44-46 | no stock and no balance is negative in any intermediate state |
| `Interleaving.InterleavedLedger` | src/domain/balance/repository/balance.repository.prisma.ts:36-65 | the committed history replays to the committed balances in every reachable state |
| `Interleaving.RollbackCommitted` | src/domain/payment/repository/payment.repository.prisma.ts:90-92 | an abort restores exactly the committed rows |
| `Interleaving.BystandersOk` | src/domain/payment/repository/payment.repository.prisma.ts:36-63 | no step of one client disturbs what another has checked or locked |
| `Interleaving.RedlocksStep` | src/infrastructure/redis/redis.redlock.ts:28-46 | every step takes and releases exactly the Redlocks that the change of phase says |
| `Completeness.ExecutionsAreExactlyRuns` | src/domain/payment/repository/payment.repository.prisma.ts:17-155 | a list of operations can be committed by some interleaved execution if and only if it is a run of successful atomic operations |
| `Completeness.Commits` | src/domain/payment/repository/payment.repository.prisma.ts:17-93 | with nobody in its way, a client whose operation is possible gets through every step to its commit |
| `Completeness.CoveredOnTheWay` | src/domain/payment/repository/payment.repository.prisma.ts:44-46 | a covered order never meets an insufficient row on the way |
| `Completeness.BackedStep` | src/domain/balance/repository/balance.repository.prisma.ts:23-66 | no operation removes a row that a payment refers to |
| `LockDiscipline.HoldsInOrder` | src/domain/payment/repository/payment.repository.prisma.ts:37-66 | a client holds its order's or payment's lock and at most one row's, and asks only for locks ranked above those it holds |
| `LockDiscipline.NoCircularWait` | src/domain/payment/repository/payment.repository.prisma.ts:18-66 | no circle of clients waits for one another's Redlocks, whatever their number |
| `LockDiscipline.EveryLockGivenBack` | src/domain/payment/repository/payment.repository.prisma.ts:90-92 | on whatever path a client has left, it gave back each lock exactly as often as it acquired it |
| `LockDiscipline.FailureReleasesEverything` | src/domain/payment/repository/payment.repository.prisma.ts:90-92 | however far a transaction got when it failed, its client can leave by its own steps with nothing locked and nothing committed |
| `Coupons.StepOk` | src/domain/coupon/service/coupon.service.ts:88-142 | every step keeps: one lock holder per promotion, one row per user and coupon, served users marked or lost, stock accounted for |
| `Coupons.CouponCap` | src/domain/coupon/service/coupon.service.ts:94-111 | without the scheduler the rows of a promotion never exceed its stock plus the marks that were lost, and no user has two rows for a coupon |
| `Coupons.TwoPathAccounting` | src/domain/coupon/service/coupon-issue.scheduler.ts:28-72 | with both paths mixed each stays within the initial stock, up to its own failures; the scheduler's rows and the stock left make up the initial stock, which never goes below zero since a batch is at most the stock |
| `CouponLimits.CapExactly` | src/domain/coupon/service/coupon.service.ts:94-111 | with a switch for each path: the stock caps both together in every execution if and only if one of them is off, there is no stock, or the promotion is never on |
| `CouponLimits.TwiceTheStock` | src/domain/coupon/service/coupon-issue.scheduler.ts:28-72 | for every stock, an execution in which each path issues all of it and nothing fails |
| `Coupons.ToDoStep` | src/domain/coupon/service/coupon-issue.scheduler.ts:30-33 | the stock covers what is left of the batch that the scheduler has popped |
| `Coupons.ServiceRefinesUpdate` | src/domain/coupon/service/coupon.service.ts:103-136 | without the scheduler an insert is exactly the atomic conditional update, whose guard it meets; any other step is a stutter if and only if it loses no mark |
| `Coupons.ExecutionRefinesUpdates` | src/domain/coupon/service/coupon.service.ts:88-142 | any interleaving of service calls that loses no mark is a run of atomic conditional updates, all successful |
| `Coupons.CallsAreAtomic` | src/domain/coupon/service/coupon.service.ts:88-142 | a call that returns took the update exactly once if it succeeded or lost its own mark, and otherwise never |
| `Coupons.InsertMeetsGuard` | src/domain/coupon/repository/coupon.repository.prisma.ts:99-108 | where the service inserts, the conditional update would have been allowed |
| `Coupons.ServedCount` | src/domain/coupon/service/coupon.service.ts:103-111 | as many service rows as served users, which is why counting marks counts rows |
| `CouponStore.CouponStore.IssueFcfsCoupon` | src/domain/coupon/service/coupon.service.ts:88-142 | the live call: which check refuses; a success adds the AVAILABLE row and the mark of its user and nothing else, a lost mark the row alone, a refusal nothing; lock released |
| `CouponStore.CouponStore.IssueLocked` | src/domain/coupon/service/coupon.service.ts:92-138 | the checks of the live call in their order, and the insert and mark |
| `CouponStore.CouponStore.ServeCalls` | src/domain/coupon/service/coupon.service.ts:88-142 | over any number of live calls: the rows created through a promotion stay within its stock when every mark is accepted and nobody was marked before; in general one mark per success, one row more per lost mark, and sold out only when the marks fill the stock |
| `CouponStore.ServedIsRefused` | src/domain/coupon/service/coupon.service.ts:103-122 | a user who was just served is refused afterwards, also when the mark was lost |
| `CouponStore.OneAnswer` | src/domain/coupon/service/coupon.service.ts:92-136 | the conditions of the answers exclude one another |
| `CouponStore.ServedExactly` | src/domain/coupon/service/coupon.service.ts:92-122 | a call creates a row if and only if the promotion is on, the marks do not fill the stock, and the user has neither a mark nor any row of the coupon |
| `CouponStore.HolderIsRefused` | src/domain/coupon/service/coupon.service.ts:113-122 | an unmarked holder is told so if the coupon is AVAILABLE, and meets the unique index otherwise |
| `CouponStore.CouponStore.CreateUserCoupon` | src/domain/coupon/repository/coupon.repository.prisma.ts:158-163 | inserts a row unless the user has one for the coupon |
| `CouponStore.CouponStore.IssueAtomically` | src/domain/coupon/repository/coupon.repository.prisma.ts:97-126 | the single conditional update: lowers the stock and inserts, or changes nothing |
| `CouponStore.CouponStore.IssueScheduled` | src/domain/coupon/service/coupon-issue.scheduler.ts:40-76 | one iteration: how it ends and what it leaves behind, for an error at any of its calls |
| `CouponStore.CouponStore.IssueBatch` | src/domain/coupon/service/coupon-issue.scheduler.ts:40-77 | the loop hands out to the popped users one after another |
| `CouponStore.CouponStore.IssueInTransaction` | src/domain/coupon/service/coupon-issue.scheduler.ts:39-78 | without a commit the tables are as before while marks in Redis stay |
| `CouponStore.RolledBackIsRefused` | src/domain/coupon/service/coupon-issue.scheduler.ts:39-78 | a user whose coupon a batch took back again, because it did not commit, is refused by every live call while the promotion is on |
| `CouponStore.CouponStore.ProcessPromotion` | src/domain/coupon/service/coupon-issue.scheduler.ts:28-78 | one promotion of a run: pops the earliest requests, at most the stock as loaded, and leaves what its batch leaves, committed or not |
| `CouponStore.EarliestServed` | src/domain/coupon/service/coupon-issue.scheduler.ts:30-35 | a batch is at most a hundred requests and at most the stock, the earliest, in order; others wait only because it is full |
| `CouponStore.CouponStore.ProcessCouponRequests` | src/domain/coupon/service/coupon-issue.scheduler.ts:22-79 | one run: the latest hundred promotions that have stock and are on, latest first, none left out below a hundred; one after another, with the stock loaded at its start |
| `CouponStore.CouponStore.RunScheduler` | src/domain/coupon/service/coupon-issue.scheduler.ts:22-79 | any number of runs at given times: what each selects, pops and leaves; a promotion that is on at none of the times keeps its stock, queue, rows and marks |
| `CouponStore.PageSelects` | src/domain/coupon/repository/coupon.repository.prisma.ts:26-53 | the query selects exactly the promotions with stock that are on, up to the latest hundred |
| `CouponStore.NothingOutOfPeriod` | src/domain/coupon/repository/coupon.repository.prisma.ts:34-38 | no run hands out, pops, marks or sells anything of a promotion that is not on |
| `CouponStore.SchedulerAccounting` | src/domain/coupon/service/coupon-issue.scheduler.ts:28-72 | over any number of runs, for every promotion: stock left plus coupons created is the initial stock plus the iterations that failed between the two, and the stock is never negative |
| `CouponStore.BatchAccounting` | src/domain/coupon/service/coupon-issue.scheduler.ts:54-72 | a batch takes exactly its issued coupons off the stock, and no user gets a second row |
| `CouponStore.BatchHolders` | src/domain/coupon/service/coupon-issue.scheduler.ts:45-67 | after a batch those hold the coupon who held it or whose request created a row, and nobody else |
| `CouponStore.BatchServes` | src/domain/coupon/service/coupon-issue.scheduler.ts:40-76 | a batch treats each of its users as if alone: issued if and only if nothing failed and the user held none, skipped if and only if the user held an AVAILABLE one, left half done if and only if marking or decrementing failed |
| `CouponStore.BatchRows` | src/domain/coupon/service/coupon-issue.scheduler.ts:54-67 | earlier rows stay, and each new one is an AVAILABLE coupon of the promotion for one of the users |
| `CouponStore.BatchMarks` | src/domain/coupon/service/coupon-issue.scheduler.ts:64-72 | marked after a batch are exactly those marked before, those issued to, and those whose iteration failed only after the mark |
| `CouponStore.OutcomesPartition` | src/domain/coupon/service/coupon-issue.scheduler.ts:40-76 | every popped request ends as exactly one of issued, skipped and failed |
| `Redis.RedisService.ZPopMin` | src/infrastructure/redis/redis.service.ts:49-57 | returns exactly the members popped, lowest score first, and leaves the others |
| `Redis.EveryOther` | src/infrastructure/redis/redis.service.ts:51-56 | the stride-2 loop over members and scores returns the members in order |
| `Selection.TakeMinima` | src/infrastructure/redis/redis.service.ts:49-50 | the members with the lowest scores, lowest first |
| `Redis.HandledOk` | src/domain/coupon/repository/coupon.redis.repository.ts:16-23 | a request or a batch keeps: popped in order of request time, popped before waiting, nobody lost or doubled |
| `Redis.QueueServesInOrder` | src/domain/coupon/repository/coupon.redis.repository.ts:16-23 | first come, first served over any run of requests and batches |
| `Redis.CouponRedisRepository.AddToRequestQueue` | src/domain/coupon/repository/coupon.redis.repository.ts:16-19 | the call is the queue's request: the sorted set holds exactly those who wait, the record stays in order, other queues stay as they are |
| `Redis.CouponRedisRepository.GetRequestUsers` | src/domain/coupon/repository/coupon.redis.repository.ts:21-23 | the call is the queue's batch: the users returned came first, in order, and are recorded once each |
| `Saga.EmitsLower` | src/orchestration/orchestrators/order/order.orchestrator.ts:24-105 | a handler emits only events of lower rank, whatever it finds and however it fails |
| `Saga.DispatchLowers` | src/orchestration/orchestrators/cart/cart.orchestrator.ts:13-97 | a dispatch lowers the count at its event's rank and no count above it |
| `Saga.CascadeEnds` | src/orchestration/orchestrators/product/product.orchestrator.ts:15-104 | no execution goes on for ever, whatever the dispatch order, item counts and failures |
| `Saga.HandlerBalanced` | src/orchestration/orchestrators/balance/balance.orchestrator.ts:21-94 | one handler keeps the account of every row: held, paid, in transit, settled, slipped |
| `Saga.DispatchKeepsAccount` | src/orchestration/orchestrators/payment/payment.orchestrator.ts:46-78 | the same for every dispatch among any pending events |
| `Saga.HandlerMatched` | src/orchestration/orchestrators/order/order.orchestrator.ts:63-100 | one handler keeps the second account: what is taken again, owed or dropped is what payments took |
| `Saga.AccountsKept` | src/orchestration/orchestrators/payment/payment.orchestrator.ts:46-78 | both accounts of every row change by what comes from outside only, for any number of sagas, any dispatch order, and any requests and repository calls in between |
| `Saga.SagaBalance` | src/orchestration/orchestrators/payment/payment.orchestrator.ts:46-78 | what a row has lost over any execution: twice what payments took, with everything in transit, owed, slipped, dropped, paid directly or brought in |
| `Saga.SuccessfulSagaTakesTwice` | src/orchestration/orchestrators/balance/balance.orchestrator.ts:26 | once a row is at rest, no completion handler has failed and every second history row was written, it has lost exactly twice what payments of sagas took, and what payments from outside took and their completions took again |
| `SagaRuns.DeductionPaysExactly` | src/orchestration/orchestrators/payment/payment.orchestrator.ts:46-66 | after its deduction a saga can pay if and only if the stock covers the order and the balance covered twice the total |
| `SagaRuns.SagaPaysExactly` | src/orchestration/orchestrators/order/order.orchestrator.ts:24-61 | a saga in which nothing fails, from the creation of the order or from its payment request, ends with the order PAID by one payment if and only if the stock covers it and the balance covers twice its total, otherwise CANCELLED |
| `SagaRuns.SagaSettles` | src/orchestration/orchestrators/order/order.orchestrator.ts:54-105 | whatever fails and in any dispatch order, an order ends PAID with a payment it could afford, or CANCELLED without one, as long as no writing of the status fails |
| `SagaRuns.PayingSaga` | src/orchestration/orchestrators/order/order.orchestrator.ts:24-89 | every saga in which nothing fails, of an order covered twice, from its creation or its payment request and in any dispatch order, ends paid with everything taken twice and only notices left |
| `SagaRuns.SomeSaga` | src/orchestration/orchestrators/order/order.orchestrator.ts:24-105 | whatever begins a saga, some execution without a failure carries it to its end |
| `SagaSafety.TakenTwiceExactly` | src/orchestration/orchestrators/product/product.orchestrator.ts:45-72 | a saga in which nothing fails takes everything twice if and only if stock and balance cover that |
| `SagaSafety.SagaNonNegative` | src/orchestration/orchestrators/product/product.orchestrator.ts:58-72 | from sane amounts no execution of sagas, requests and operations makes a stock or balance negative |
| `SagaSafety.StockUpdateExactly` | src/orchestration/orchestrators/product/product.orchestrator.ts:45-104 | a decrease takes its quantity if and only if the stock covers it, and otherwise leaves every row and reports the failure |
| `SagaSafety.SagaLedgerExactly` | src/orchestration/orchestrators/balance/balance.orchestrator.ts:24-42 | from a correct ledger, an execution ends with a correct ledger if and only if no handler of it moved an amount other than zero and logged the move a second time |
| `SagaSafety.NoOrderPaidTwice` | src/orchestration/orchestrators/order/order.orchestrator.ts:63-105 | no execution of sagas, requests and repository calls gives an order a second payment, although handlers overwrite statuses |
| `SagaSafety.NoPaidOrderCancelled` | src/orchestration/orchestrators/payment/payment.orchestrator.ts:46-78 | with at most one saga for an order, none for a paid one, and no payment from outside beside a saga, no order with a COMPLETED payment is ever CANCELLED |
| `SagaSafety.SecondSagaCancels` | src/orchestration/orchestrators/payment/payment.orchestrator.ts:64-77 | every PAID order with another saga pending can end CANCELLED with all payments as they were |
| `SagaSafety.ControllerCancels` | src/interfaces/controllers/payment/payment.controller.ts:31-51 | every order that can be paid can end CANCELLED with its payment COMPLETED, by the one request that pays for it |
| `SagaSafety.ControllerKeepsPaid` | src/interfaces/controllers/payment/payment.controller.ts:31-51 | the same request can end with the order PAID for good: the dispatch order decides |
| `SagaChecks.CheckReports` | src/orchestration/orchestrators/product/product.orchestrator.ts:15-43 | a check reports an item available if and only if its variant has that much stock |
| `SagaChecks.ChecksReportCoverage` | src/orchestration/orchestrators/product/product.orchestrator.ts:15-43 | the checks of an order all report availability if and only if `createOrder` would accept its items |
| `SagaChecks.CartCheckedTwice` | src/orchestration/orchestrators/cart/cart.orchestrator.ts:30-86 | a checkout in which nothing fails checks each item of the cart exactly twice, as often as it is there, once for the cart and once for its order |
| `SagaChecks.OrderCheckedOnce` | src/orchestration/orchestrators/order/order.orchestrator.ts:27-35 | the saga of an order checks each of its items exactly once, as often as it is there |
| `Saga.CartCheckoutChangesNothing` | src/orchestration/orchestrators/cart/cart.orchestrator.ts:39-49 | cascades that start from a cart, also beside further such requests, change no stock, balance, history, order or payment |
| `Orchestrators.Orchestrators.HandleCartCheckout` | src/orchestration/orchestrators/cart/cart.orchestrator.ts:13-62 | one validation per item and an order event without identifier; an empty or unreadable cart, or one that cannot be cleared, is reported |
| `Orchestrators.Orchestrators.HandleCartValidation` | src/orchestration/orchestrators/cart/cart.orchestrator.ts:64-86 | one stock check per item |
| `Orchestrators.Orchestrators.HandleOrderCreation` | src/orchestration/orchestrators/order/order.orchestrator.ts:24-61 | stock checks, a coupon check if there is a coupon, and the payment; or the order cancelled and the failure reported, unless that fails too |
| `Orchestrators.Orchestrators.HandlePaymentInitiation` | src/orchestration/orchestrators/payment/payment.orchestrator.ts:19-44 | asks for the order's final amount, or fails the payment |
| `Orchestrators.Orchestrators.HandleBalanceDeduction` | src/orchestration/orchestrators/balance/balance.orchestrator.ts:21-57 | deducts and logs twice, or fails the payment; a failing second log leaves the deduction |
| `Orchestrators.Orchestrators.HandleBalanceDeductionComplete` | src/orchestration/orchestrators/payment/payment.orchestrator.ts:46-78 | pays, or asks for the deducted amount back and fails the payment |
| `Orchestrators.Orchestrators.HandleBalanceCharge` | src/orchestration/orchestrators/balance/balance.orchestrator.ts:59-94 | gives the amount back and logs twice, or reports the failure |
| `Orchestrators.Orchestrators.HandlePaymentCompletion` | src/orchestration/orchestrators/order/order.orchestrator.ts:63-100 | marks the order PAID and asks for each item's stock again; whatever throws before, nothing is asked for |
| `Orchestrators.Orchestrators.HandleStockUpdate` | src/orchestration/orchestrators/product/product.orchestrator.ts:45-104 | writes the new stock, or reports a missing variant or an insufficient stock |
| `Orchestrators.Orchestrators.HandleStockCheck` | src/orchestration/orchestrators/product/product.orchestrator.ts:15-43 | reports whether a variant is in stock; a missing one, or an error, is not |
| `Orchestrators.Orchestrators.Dispatch` | src/orchestration/orchestrators/order/order.orchestrator.ts:24-105 | sending any pending event to its handler is one turn of the saga system |
| `Orchestrators.Orchestrators.Drain` | src/orchestration/orchestrators/cart/cart.orchestrator.ts:13-97 | dispatching in any order comes to an end, whatever fails, as an execution that keeps both accounts of every row |
| `Outbox.QueryAsWrittenSelectsNothing` | src/infrastructure/outbox/outbox.service.ts:19-31 | the query as written selects no event |
| `Outbox.OutboxService.ProcessEvents` | src/infrastructure/outbox/outbox.service.ts:14-86 | one run: the ten oldest events that are PENDING, or FAILED with less than three retries, and untouched for five minutes, get one attempt each up to one that aborts the run; each ends PUBLISHED, or FAILED with one retry more; the others stay |
| `Outbox.OutboxService.TryAll` | src/infrastructure/outbox/outbox.service.ts:38-79 | the loop of a run |
| `Outbox.OutboxService.Try` | src/infrastructure/outbox/outbox.service.ts:39-78 | one attempt: published, or failed with one retry more, or the run aborted |
| `Outbox.OutboxService.CreateEvent` | src/infrastructure/outbox/outbox.service.ts:88-106 | a new event is PENDING and untried |
| `Outbox.AtMostThreeAttempts` | src/infrastructure/outbox/outbox.service.ts:23-26 | at most three attempts beyond aborted ones, and a published event did reach Kafka |
| `Outbox.PublishedForGood` | src/infrastructure/outbox/outbox.service.ts:41-44 | over any number of runs, aborted or not, a published event is in no batch and never changes |
| `Outbox.TenOldest` | src/infrastructure/outbox/outbox.service.ts:21-33 | the selection: at most ten, oldest first, none left out below ten |
| `Outbox.RetriesSpaced` | src/infrastructure/outbox/outbox.service.ts:28-30 | over any number of runs in the order of their times, an event is selected again only more than five minutes after its last attempt |
| `Outbox.MeasureStep` | src/infrastructure/outbox/outbox.service.ts:69-77 | every attempt that is recorded lessens the work left |
| `Outbox.Tick` | src/infrastructure/outbox/outbox.service.ts:14-86 | a run that is not aborted tries its whole batch, and leaves less work or finds nothing open |
| `Outbox.ProcessAll` | src/infrastructure/outbox/outbox.service.ts:14-86 | runs more than five minutes apart, each over the oldest eligible events, come to an end with every event published or failed three times |
| `Discount.PriceOrder` | src/domain/order/service/order.service.ts:54-86 | the total is the sum of the prices of all single units; discount and final amount make it up |
| `Discount.TotalCountsUnits` | src/domain/order/service/order.service.ts:54-56 | the total of an order is the sum of the prices of its single units, each line counting as often as its quantity |
| `Discount.UnitsTotalTheSame` | src/domain/order/service/order.service.ts:54-56 | splitting every line into lines of quantity 1 keeps the total |
| `Discount.LineOrderIrrelevant` | src/domain/order/service/order.service.ts:54-56 | the total does not depend on the order of the lines |
| `Discount.DiscountsAgreeExactly` | src/orchestration/orchestrators/coupon/coupon.orchestrator.ts:36-46 | when the two calculations of the discount agree, and when not, for real totals and percentages |
| `Discount.WholeDiscountsAgreeExactly` | src/orchestration/orchestrators/coupon/coupon.orchestrator.ts:42-43 | for a whole total and percentage they agree if and only if the coupon does not apply, or takes nothing, or is in date and a hundred divides total times percentage |
| `Discount.RoundingLosesLessThanOne` | src/orchestration/orchestrators/coupon/coupon.orchestrator.ts:42-43 | rounding down loses less than one unit |
| `Discount.NegativeFinalExactly` | src/domain/order/service/order.service.ts:74-86 | when a discount exceeds the total |

## Left out

- Interleaving.Readable: a refund among interleaved clients needs the balance row to exist; that a missing row is created is
  modelled in `Shop.After` and `ChargeBalance`. `Completeness.BackedStep` shows that it exists wherever a payment was made.
- Saga.Handle: a handler runs as one step; in the shop, `handleStockUpdate` reads and writes without a lock, and handlers
  await between their calls. When `handleOrderCreation` fails, it has emitted none of its requests.
- Coupons.Next: the iterations of a committed batch become visible one at a time, not all at once.
- PaymentRepository.PaymentRepository.CancelPayment: the payment is read inside the transaction; in the shop it is read
  beside it, under the same lock.
- Row locks may deadlock: items are locked in the order in which they are stored. MySQL then aborts one transaction, which is
  a `Fail` step here.
- Expiry of Redlocks, their quorum and retries.
- `createOrder` inserts the order outside its transaction, and outbox rows inside it: a second one when Kafka fails, and a status
  SENT; none of this is modelled, nor its check that a product is active, nor the coupon that it attaches.
- The order in which Redis pops members with equal scores, and in which MySQL returns events created at the same time, is any.
- Expiry dates, transaction identifiers, timestamps, conversion of identifiers to strings, and rounding of floating point.
- Coupon validation, coupon issue and the use of a coupon on completion are events without effect on the tables modelled here.
- Controllers, guards, validation of requests, caching, statistics, pagination, carts beyond checkout, mail, logging, scripts.
