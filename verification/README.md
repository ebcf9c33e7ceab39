# Order saga: model and proofs

This project models the order saga of the shop: the orchestrator in order-service, the stock
participant in product-service, the payment participant in payment-service, the e-mail log of
notification-service, the transactional outboxes and the Kafka consumer that connect them. It
proves what the saga guarantees in every state of every run.

## How it is modelled

* `World.dfy` is the composed system. Every database transaction is one atomic step. The network
  is the set of all messages ever published: any of them may be delivered at any time, any number
  of times, or never, and the poller may visit any running saga at any time. So duplication,
  reordering, loss and crashes are all covered; a rolled-back handler is a step that changes nothing.
* Each service is a class with the source's tables as fields and a method per handler. Each method
  is proved equal to a transaction function (`OnStockReserved`, `HandleReserve`, `HandlePayment`, ...),
  and the runs of `World` are made of those functions.
* `Local.dfy` states the invariant from the point of view of one order, `Invariant.dfy` lifts it
  to all orders and messages with a frame rule, `OrderSteps.dfy` and `ParticipantSteps.dfy` show
  that every step keeps it, `Ledger.dfy` adds the two conservation laws, `Safety.dfy` closes the
  induction over runs, and `Theorems.dfy`, `Termination.dfy`, `Effects.dfy`, `Progress.dfy` and `Finishing.dfy` state the
  results: what holds in every state, how long anything can last, what every transaction writes,
  and that every saga can be brought to its end.
* `Outbox.dfy`, `OutboxProperties.dfy`, `Consumer.dfy`, `Persistence.dfy` and `ProductCache.dfy`
  are the supporting loops, each with its own properties.

Three history variables, read by no transaction, make the laws statable: the lines a refused
reservation has nevertheless taken, the stock each product was created with, and the money each
wallet was given.

Assumptions. Transactions are atomic and serial (row locks; one-partition topics,
docker-compose.yml:278-289). Ids are fresh uuids of 36 characters. Money is in whole cents where
the code uses floating point over decimal columns. Clocks, transaction ids and the outcome of
every network call are parameters. Quantities and prices are not negative, as request validation
demands.

## What the code does, where one might expect otherwise

* An order becomes CONFIRMED when its stock is reserved, before it is paid
  (saga-orchestrator.service.ts:48). `ConfirmedIsNotPaid` is a run that shows it, `ConfirmedIsPaidIff`
  says exactly when the payment command then charges it, and what follows from ORDER_CONFIRMED is
  `ConfirmationSoundness`.
* A saga that runs out of retries fails without cancelling the order or releasing the stock
  (saga-orchestrator.service.ts:170-176). `FailingCancelsIff` says, before the step, exactly when
  failing a saga cancels its order, `FailedSagaCancelledIff` says it of the state afterwards,
  `PollerAbandons` that abandonment does happen and `AbandonedOrdersStay` that it is final.
* A refused reservation commits the lines taken before the failing one
  (products-saga.controller.ts:74-90) and nobody gives them back. `RefusalLeavesStockIff` says
  exactly when that is harmless, and the stock law carries the rest as an explicit term.
* Releasing a reservation does not always undo it: another order may meanwhile have been refused
  the pieces. `ReservationCanBeVisible` is such a case, `ReserveThenReleaseIsInvisible` and
  `OneOtherUnaffectedIff` say when there is none.
* A declined payment leaves its row PENDING (payments.service.ts:31-42).
* Participants recognise a command by the command id in its payload. The comment in
  abstract-outbox-processor.service.ts:58-59 says they use the envelope's message id; they do not.
* The poller does not check `nextRetryAt` again when it reloads a saga, so no minimum distance
  between retries is claimed.
* Evicting a product from the cache before the stock is written does not prevent stale values,
  against products.service.ts:143-147: `EvictionLeavesAWindow` and `CommitLeavesCurrentIff`.
* The project's overview speaks of a `sent` flag on outbox rows; the code has a status column.
* A FAILED outbox row gets a new schedule from the shared processor and keeps its old one in
  order-service; `SameRowIff` says exactly when the two agree.

Verify everything with `dafny verify dfyconfig.toml`.

## Model

| member | source | states |
|---|---|---|
| `Theorems.ChargeCancelExclusion` | services/order-service/src/orders/application/services/saga-orchestrator.service.ts:64-152 | In no state of any run is an order both CANCELLED and charged; a charged order stays charged and is never cancelled later; a cancelled order stays cancelled and is never charged later. |
| `Theorems.ConfirmationSoundness` | services/order-service/src/orders/application/services/saga-orchestrator.service.ts:78-111 | Once ORDER_CONFIRMED is written, then and ever after: saga COMPLETED, order CONFIRMED, stock reserved and never released, one COMPLETED payment of the order's user whose amount is the order total, which is the sum of unit price times quantity over the items and the total in the event; the event lists the reservation's lines with names and prices and names the order's user, e-mail and correlation id; the row has the transaction id of the stored reply. |
| `Theorems.CompensationIsComplete` | services/order-service/src/orders/application/services/saga-orchestrator.service.ts:113-152 | A CANCELLED order either was refused its stock, with no payment answered and nothing released, or was reserved, declined and released. |
| `Theorems.ReleaseIsNeverSpurious` | services/product-service/src/products/products-saga.controller.ts:94-125 | Stock was released for an order only if it was reserved and a PAYMENT_FAILED reply is stored, and the order is not charged. |
| `Theorems.ReleaseGivesBackWhatWasReserved` | services/product-service/src/products/products-saga.controller.ts:94-125 | Delivering a published release command raises every product by exactly what the order's stored reservation took of it, the first time, and by nothing on every redelivery. |
| `Theorems.StockConservation` | services/product-service/src/products/products-saga.controller.ts:40-125 | For every product in every reachable state: stock plus what orders hold plus the committed prefixes of refused reservations equals what the product was created with; only refused orders have such a prefix, and none has more of a product in it than it asked for. |
| `Theorems.RefusalLeaksNothingIff` | services/product-service/src/products/products-saga.controller.ts:62-90 | In every run, the delivery that refuses a reservation leaks a proper prefix of the command's lines, and nothing if and only if the first line is the one refused; with positive quantities that is exactly when the products stay as they were. |
| `Theorems.WalletLedger` | services/payment-service/src/payments/wallet.service.ts:8-55 | For every user in every reachable state: balance plus the user's COMPLETED payments equals what the wallet was opened with and topped up by; a payment row is COMPLETED exactly when the stored reply is PAYMENT_PROCESSED. |
| `Theorems.RepliesAreDeterministic` | services/product-service/src/products/products-saga.controller.ts:46-90 | Any two replies ever published for one command id, at any two times of a run, are the same message. |
| `Theorems.KeysNeverCollide` | services/order-service/src/orders/application/services/saga-orchestrator.service.ts:236-269 | In every reachable idempotency table, entries with the same key text are the same entry. |
| `Theorems.TextIsAsGoodAsKey` | services/product-service/src/products/products-saga.controller.ts:46-50 | In every reachable state a published command has the key text of a stored entry if and only if it has its key, so an absent key has an absent text. |
| `Theorems.JointInvariant` | services/order-service/src/orders/application/services/saga-orchestrator.service.ts:35-234 | In every reachable state: waiting for stock means PENDING, waiting for payment or release means CONFIRMED, COMPLETED saga means CONFIRMED and charged, CANCELLED means FAILED saga, RUNNING exactly when nextRetryAt is set, and no order is ever COMPLETED. |
| `Theorems.NothingThrows` | services/order-service/src/orders/application/services/saga-orchestrator.service.ts:35-234 | In every reachable state no delivery of a published message and no poller visit throws: no transition error, no missing order, no duplicate payment row. |
| `Theorems.OneOutcomePerOrder` | services/order-service/src/orders/application/services/saga-orchestrator.service.ts:94-108 | The number of ORDER_CONFIRMED and ORDER_CANCELLED rows of an order is one exactly when its saga completed or it was cancelled, else zero; at most one of the two e-mails is ever sent, and only after its row. |
| `Theorems.ReasonProvenance` | services/order-service/src/orders/application/services/saga-orchestrator.service.ts:124-152 | The reason in ORDER_CANCELLED is that of the stored stock refusal or payment refusal and equals the saga's lastError ever after, so the default text never appears; user, e-mail and correlation id are the order's. |
| `Theorems.FailedSagaCancelledIff` | services/order-service/src/orders/application/services/saga-orchestrator.service.ts:170-176 | A FAILED saga has cancelled its order if and only if its lastError is not the exhausted-retries text; when it is, retryCount is at its maximum. |
| `Termination.FailingCancelsIff` | services/order-service/src/orders/application/services/saga-orchestrator.service.ts:164-187 | In the step that fails a running saga, the order is cancelled if and only if the step is not a poller visit to a saga whose retry budget is already spent. |
| `Theorems.PollerAbandons` | services/order-service/src/orders/application/services/saga-orchestrator.service.ts:154-194 | From any running saga, as many unanswered poller visits as retries are left plus one end in a FAILED saga while every order, whatever its status, is left as it was. |
| `Theorems.AbandonedOrdersStay` | services/order-service/src/orders/application/services/saga-orchestrator.service.ts:170-176 | An order whose saga ran out of retries is PENDING or CONFIRMED and keeps that status in every later state. |
| `Progress.ConfirmedBeforePaid` | services/order-service/src/orders/application/services/saga-orchestrator.service.ts:46-60 | From every safe state in which an unanswered reservation fits the stock, passing two messages makes the order CONFIRMED and uncharged. |
| `Progress.ConfirmedIsNotPaid` | services/order-service/src/orders/application/services/saga-orchestrator.service.ts:48 | A concrete run that ends with an order CONFIRMED and not charged. |
| `Theorems.ConfirmedIsPaidIff` | services/payment-service/src/payments/payments-saga.controller.ts:53-82 | In every run, delivering the unanswered payment command of a CONFIRMED order charges it if and only if the user's wallet exists and holds the order's total. |
| `Progress.HappyPathCompletes` | services/order-service/src/orders/application/services/saga-orchestrator.service.ts:35-111 | From every safe state in which an unanswered reservation fits the stock and the wallet holds its price, passing four messages completes the saga and writes ORDER_CONFIRMED. |
| `Progress.RefusedPathCancels` | services/order-service/src/orders/application/services/saga-orchestrator.service.ts:64-76 | From every safe state in which an unanswered reservation does not fit the stock, passing two messages cancels the order, fails its saga with the refusal's reason and writes ORDER_CANCELLED. |
| `Progress.DeclinedPathCompensates` | services/order-service/src/orders/application/services/saga-orchestrator.service.ts:113-152 | From every safe state in which an unanswered reservation fits the stock but the wallet lacks its price, passing six messages cancels the order with the declined payment's reason, and products and wallets are exactly as before. |
| `Progress.RetryRecoversPayment` | services/order-service/src/orders/application/services/saga-orchestrator.service.ts:178-187 | When the payment command of a saga below its retry limit is unanswered and affordable, one poller visit and two passed messages complete the saga. |
| `Finishing.RunHasAsked` | services/order-service/src/orders/application/services/saga-orchestrator.service.ts:35-269 | In every state of every run the command that each running saga waits on is in the outbox. |
| `Finishing.EverySagaCanFinish` | services/order-service/src/orders/application/services/saga-orchestrator.service.ts:35-152 | From every state of every run, for every running saga, at most twelve more events, each a publication or delivery of a message that exists, complete the saga or cancel its order: no saga is ever stuck. |
| `Termination.EverySagaEnds` | services/order-service/src/orders/domain/entities/saga.ts:17-127 | Over every run, a saga row changes at most 6 times, the poller obtains it at most 4 times, and at most 7 order-service outbox rows are about its order. |
| `Termination.BudgetsHold` | services/order-service/src/orders/domain/entities/saga.ts:109-127 | At every point of a run, updates and visits so far plus the remaining budgets (step rank plus retries left) stay within 6 and 4. |
| `Termination.EndedSagasStay` | services/order-service/src/orders/domain/entities/saga.ts:56-58 | A saga that is COMPLETED or FAILED at some point of a run is the same row at every later point, and its order keeps its status. |
| `Safety.RunIsSafe` | services/order-service/src/orders/application/services/saga-orchestrator.service.ts:35-269 | Every state of every run satisfies the system invariant, the stock law and the money law. |
| `Safety.RunGrows` | services/order-service/src/orders/application/services/saga-orchestrator.service.ts:35-269 | Between any two states of a run no order loses identity, stored replies, its payment row, or terminal status. |
| `Safety.EventIsSafe` | services/order-service/src/orders/application/services/saga-orchestrator.service.ts:35-194 | Each atomic event (any delivery, poller visit, publication, creation, top-up, roll-back) keeps the invariant and both laws. |
| `OrderSteps.OrderedKeeps` | services/order-service/src/orders/application/use-cases/create-order.use-case.ts:45-62 | Creating an order with a fresh id and saga id keeps the system invariant and every other order. |
| `OrderSteps.StockReservedKeeps` | services/order-service/src/orders/application/services/saga-orchestrator.service.ts:35-62 | Delivering a published STOCK_RESERVED never throws and keeps the system invariant. |
| `OrderSteps.ReservationFailedKeeps` | services/order-service/src/orders/application/services/saga-orchestrator.service.ts:64-76 | Delivering a published STOCK_RESERVATION_FAILED never throws and keeps the system invariant. |
| `OrderSteps.PaymentProcessedKeeps` | services/order-service/src/orders/application/services/saga-orchestrator.service.ts:78-111 | Delivering a published PAYMENT_PROCESSED never throws and keeps the system invariant. |
| `OrderSteps.PaymentFailedKeeps` | services/order-service/src/orders/application/services/saga-orchestrator.service.ts:113-138 | Delivering a published PAYMENT_FAILED never throws and keeps the system invariant. |
| `OrderSteps.StockReleasedKeeps` | services/order-service/src/orders/application/services/saga-orchestrator.service.ts:140-152 | Delivering a published STOCK_RELEASED never throws and keeps the system invariant. |
| `OrderSteps.PolledKeeps` | services/order-service/src/orders/application/services/saga-orchestrator.service.ts:154-194 | A poller visit to any saga at any time never throws and keeps the system invariant. |
| `OrderSteps.ReloadedKeeps` | services/order-service/src/orders/infrastructure/persistence/order.mapper.ts:14 | Items coming back in another order keep the system invariant. |
| `OrderSteps.ReplyIsStored` | services/product-service/src/products/products-saga.controller.ts:46-60 | Every published reply is the one stored for its order's saga. |
| `ParticipantSteps.ReserveKeeps` | services/product-service/src/products/products-saga.controller.ts:40-92 | Delivering a published reserve command, first time or again, keeps the system invariant. |
| `ParticipantSteps.ReleaseKeeps` | services/product-service/src/products/products-saga.controller.ts:94-125 | Delivering a published release command, first time or again, keeps the system invariant. |
| `ParticipantSteps.PaymentKeeps` | services/payment-service/src/payments/payments-saga.controller.ts:29-84 | Delivering a published payment command, first time or again, keeps the system invariant. |
| `ParticipantSteps.PaymentNeverThrows` | services/payment-service/src/payments/payments-saga.controller.ts:53-82 | In a state satisfying the invariant a published payment command never hits the unique order column. |
| `ParticipantSteps.NotifiedKeeps` | services/notification-service/src/notification/notification.service.ts:16-30 | Delivering an outcome event to notification-service keeps the system invariant, with its e-mail counts. |
| `Ledger.NewReserveBalanced` | services/product-service/src/products/products-saga.controller.ts:62-90 | A first reserve command, accepted or refused, keeps the stock law: what left the shelf is held or leaked. |
| `Ledger.NewReleaseBalanced` | services/product-service/src/products/products-saga.controller.ts:116-123 | A first release command keeps the stock law: what returns to the shelf is exactly what the order held. |
| `Ledger.ChargeBalanced` | services/payment-service/src/payments/payments.service.ts:28-49 | Charging, settled or declined, leaves every user's balance plus settled payments unchanged. |
| `Effects.OrderingWrites` | services/order-service/src/orders/application/use-cases/create-order.use-case.ts:45-62 | Placing an order writes exactly the pending order with its lines, its running saga due in 30 s, and one reserve command under the saga's id. |
| `Effects.ReservationConfirms` | services/order-service/src/orders/application/services/saga-orchestrator.service.ts:35-62 | An awaited STOCK_RESERVED gives the order exactly the reservation's names, prices and total, moves the saga to payment and writes one payment command for that total, user and saga; nothing else changes. |
| `Effects.RefusalCancels` | services/order-service/src/orders/application/services/saga-orchestrator.service.ts:64-76 | An awaited STOCK_RESERVATION_FAILED cancels the order, fails the saga with its reason and writes one ORDER_CANCELLED for the order's user; nothing else changes. |
| `Effects.PaymentCompletes` | services/order-service/src/orders/application/services/saga-orchestrator.service.ts:78-111 | An awaited PAYMENT_PROCESSED completes the saga and writes one ORDER_CONFIRMED with the order's user, items and total; nothing else changes. |
| `Effects.DeclineAsksForRelease` | services/order-service/src/orders/application/services/saga-orchestrator.service.ts:113-138 | An awaited PAYMENT_FAILED starts the compensation and writes one release command, under the release key, for the order's lines, which are as a multiset those reserved; nothing else changes. |
| `Effects.ReleaseCancels` | services/order-service/src/orders/application/services/saga-orchestrator.service.ts:140-152 | An awaited STOCK_RELEASED cancels the order with the reason of the stored declined payment and writes one ORDER_CANCELLED; nothing else changes. |
| `Effects.UnexpectedReplyIsIgnored` | services/order-service/src/orders/application/services/saga-orchestrator.service.ts:196-209 | A reply whose saga is not running in its step changes nothing. |
| `Effects.VisitRetriesOrGivesUp` | services/order-service/src/orders/application/services/saga-orchestrator.service.ts:166-187 | A poller visit to a running saga below three retries counts one, sets the clock to 60, 120 or 240 s and writes exactly the command of the step it is in; at three it fails the saga and writes nothing; any other visit changes nothing. |
| `Effects.RoundVisitsEach` | services/order-service/src/orders/application/services/saga-orchestrator.service.ts:164-193 | A round over distinct running sagas visits each once, leaves all other sagas and every order alone, and writes one command per saga that still has retries, in order. |
| `Effects.StuckAreWaiting` | services/order-service/src/orders/infrastructure/persistence/typeorm-saga.repository.ts:37-43 | In every state satisfying the invariant, the sagas the query finds are such as a round is about. |
| `Effects.ReserveIsAnswered` | services/product-service/src/products/products-saga.controller.ts:62-90 | A new reserve command takes all its lines exactly when they fit and is answered with them at the table's names and prices and their total; otherwise it takes the lines before the failing one and is answered with that line's error text. |
| `Effects.ReleaseIsAnswered` | services/product-service/src/products/products-saga.controller.ts:116-123 | A new release command puts back its quantities, stores and queues STOCK_RELEASED; nothing else changes. |
| `Effects.PaymentIsAnswered` | services/payment-service/src/payments/payments-saga.controller.ts:53-82 | A new payment command debits, settles and answers under one transaction id exactly when the wallet holds the amount; otherwise wallets stay, the row is PENDING and the answer names both amounts. |
| `Effects.KnownCommandRepeats` | services/product-service/src/products/products-saga.controller.ts:49-60 | A command seen before only queues its stored reply again. |
| `Effects.OutcomeIsMailed` | services/notification-service/src/notification/notification.service.ts:16-30 | The first ORDER_CONFIRMED sends exactly the confirmed e-mail of that order, the first ORDER_CANCELLED the cancelled one, and a repeated one nothing. |
| `Effects.MailsAreTrue` | services/notification-service/src/notification/notification.service.ts:16-52 | In every state of every run a confirmed e-mail was sent only for a CONFIRMED order whose saga completed, and a cancelled e-mail only for a CANCELLED order. |
| `Local.LegalStays` | services/order-service/src/orders/application/services/saga-orchestrator.service.ts:35-152 | A message that is legal for an order stays legal however the order's state grows. |
| `Local.ConfirmStep` | services/order-service/src/orders/application/services/saga-orchestrator.service.ts:46-60 | Confirming with the stored reservation is possible whenever the saga waits for stock and keeps the per-order invariant; the payment command it writes is for the reservation's total. |
| `Local.RetryStep` | services/order-service/src/orders/application/services/saga-orchestrator.service.ts:178-186 | A retry of any step keeps the per-order invariant, and the command it resends is legal in that state. |
| `Local.GiveUpStep` | services/order-service/src/orders/application/services/saga-orchestrator.service.ts:170-176 | Giving up a saga with a spent retry budget keeps the per-order invariant and writes nothing. |
| `OrderEntity.ConfirmPricesEveryItem` | services/order-service/src/orders/domain/entities/order.ts:37-55 | Confirming with the details of a reservation of the same lines, in any order and with repeated products, gives exactly the reservation's lines, names and prices, so that they add up to its total, and changes no line. |
| `OrderEntity.ReorderKeepsTotals` | services/order-service/src/orders/infrastructure/persistence/order.mapper.ts:7-18 | Reordered items have the same lines, totals and event lines as multisets. |
| `OrderEntity.NewItems` | services/order-service/src/orders/domain/entities/order.ts:23-35 | A new order asks for exactly the given lines. |
| `OrderEntity.FindDetail` | services/order-service/src/orders/domain/entities/order.ts:41-44 | The first detail line of the product, or none exists. |
| `OrderEntity.TransitionsAllowedIff` | services/order-service/src/orders/domain/entities/order.ts:37-88 | An order can be confirmed if and only if it is PENDING, and compensated if and only if it is PENDING or CONFIRMED. |
| `SagaEntity.AdvanceAllowedIff` | services/order-service/src/orders/domain/entities/saga.ts:17-63 | A saga can be advanced if and only if it is in one of the two forward steps. |
| `Messages.KeyTextInjective` | services/order-service/src/orders/application/services/saga-orchestrator.service.ts:236-269 | For saga ids of uuid length, key texts id, id-pay and id-release are equal if and only if saga and purpose are. |
| `Orchestrator.Service.StockReservedHandler` | services/order-service/src/orders/application/services/saga-orchestrator.service.ts:35-62 | New tables equal the transaction function of the old ones; an error means everything is rolled back. |
| `Orchestrator.Service.StockReservationFailedHandler` | services/order-service/src/orders/application/services/saga-orchestrator.service.ts:64-76 | New tables equal the transaction function of the old ones; an error means everything is rolled back. |
| `Orchestrator.Service.PaymentProcessedHandler` | services/order-service/src/orders/application/services/saga-orchestrator.service.ts:78-111 | New tables equal the transaction function of the old ones; an error means everything is rolled back. |
| `Orchestrator.Service.PaymentFailedHandler` | services/order-service/src/orders/application/services/saga-orchestrator.service.ts:113-138 | New tables equal the transaction function of the old ones; an error means everything is rolled back. |
| `Orchestrator.Service.StockReleasedHandler` | services/order-service/src/orders/application/services/saga-orchestrator.service.ts:140-152 | New tables equal the transaction function of the old ones; an error means everything is rolled back. |
| `Orchestrator.Service.Cancel` | services/order-service/src/orders/application/services/saga-orchestrator.service.ts:211-234 | Order compensated, saga failed, ORDER_CANCELLED written with the reason; or nothing at all. |
| `Orchestrator.Service.FindStuck` | services/order-service/src/orders/infrastructure/persistence/typeorm-saga.repository.ts:37-43 | Up to the limit distinct running sagas whose retry time has come, and all of them when fewer than the limit are returned. |
| `Orchestrator.Service.RetryStuckSagas` | services/order-service/src/orders/application/services/saga-orchestrator.service.ts:154-194 | At most ten sagas, all stuck at the query, all distinct, are visited in turn, each visit a transaction of its own; all stuck sagas when there are fewer than ten. |
| `Orchestrator.Service.RetryOne` | services/order-service/src/orders/application/services/saga-orchestrator.service.ts:166-187 | One visit: give up, or reschedule and resend, or roll back. |
| `Stock.ReserveSucceedsIff` | services/product-service/src/products/products.service.ts:118-138 | The line-by-line loop succeeds if and only if every product is active and the total demand for it, over repeated lines, fits its stock. |
| `Stock.ReserveEffect` | services/product-service/src/products/products.service.ts:118-140 | Whatever happens, exactly the quantities of the lines before the stop are gone, those lines are reported at the table's names and prices, and the loop stops early exactly on a refusal. |
| `Stock.RefusalLeavesStockIff` | services/product-service/src/products/products-saga.controller.ts:74-90 | With positive quantities, a refused reservation leaves the products untouched if and only if the first line is the one refused. |
| `Stock.RefusalCanLeak` | services/product-service/src/products/products-saga.controller.ts:74-90 | A concrete two-line command whose refusal keeps the stock of its first line. |
| `Stock.RefusalIsOfNextLine` | services/product-service/src/products/products.service.ts:124-127 | The error that stops the loop is that of the line after those taken, in the table as it then is. |
| `Stock.ReleaseEffect` | services/product-service/src/products/products.service.ts:160-169 | Release adds, per product, the total quantity over all its lines and changes nothing else. |
| `Stock.ReserveThenReleaseIsInvisible` | services/product-service/src/products/products.service.ts:113-169 | Reserve, any reservations by others, accepted or refused, and any releases, then release of the same lines in any order: the table is the one the others alone would have left, whenever no other reservation stops at another line because of ours. |
| `Stock.InvisibleAmidSuccesses` | services/product-service/src/products/products.service.ts:113-169 | In particular whenever every other reservation goes through, which they then also do without ours. |
| `Stock.ReservationCanBeVisible` | services/product-service/src/products/products.service.ts:125-127 | A concrete case where holding the last piece makes another reservation fail, so that the final tables differ. |
| `Stock.OneOtherUnaffectedIff` | services/product-service/src/products/products.service.ts:113-169 | For one other reservation of positive quantities, accepted or refused, the final tables are equal if and only if it takes equally many lines with ours held as without. |
| `ProductService.Service.ReserveStock` | services/product-service/src/products/products.service.ts:113-141 | Table, reported lines and error of the loop, run inside the caller's transaction. |
| `ProductService.Service.ReserveStockOwnTransaction` | services/product-service/src/products/products.service.ts:154-156 | All or nothing: succeeds if and only if the demand fits, and then takes all of it; otherwise the table is untouched. |
| `ProductService.Service.ReleaseStock` | services/product-service/src/products/products.service.ts:160-169 | The table after adding back every line in turn. |
| `ProductService.Service.HandleReserveStock` | services/product-service/src/products/products-saga.controller.ts:40-92 | Products, stored reply and outbox after the command: the stored reply again for a known id, the committed attempt and its reply for a new one. |
| `ProductService.Service.HandleReleaseStock` | services/product-service/src/products/products-saga.controller.ts:94-125 | Products, stored reply and outbox after the command: the stored reply again for a known id, the release for a new one. |
| `ProductService.RedeliveriesChangeNothing` | services/product-service/src/products/products-saga.controller.ts:46-60 | Any sequence of stock commands with redeliveries and resends leaves the products and stored replies of its first deliveries alone. |
| `ProductService.EveryReplyIsTheStoredOne` | services/product-service/src/products/products-saga.controller.ts:46-90 | Every delivery queues exactly one reply, and it is the reply finally stored for its command id. |
| `ProductService.StoredRepliesStay` | services/payment-service/src/payments/idempotency.service.ts:12-21 | A stored reply is never replaced. |
| `PaymentService.Service.Deduct` | services/payment-service/src/payments/wallet.service.ts:19-39 | Debits if and only if the wallet exists and holds enough; otherwise nothing changes and the error names what it holds. |
| `PaymentService.Service.ProcessPayment` | services/payment-service/src/payments/payments.service.ts:28-49 | Row and wallet after the attempt: settled and debited together, or left PENDING and undebited; nothing changes exactly when the order already has a row. |
| `PaymentService.Service.HandleProcessPayment` | services/payment-service/src/payments/payments-saga.controller.ts:29-84 | All four tables after the command, or an error and no change when the order already has a payment row. |
| `PaymentService.ChargedAtMostOnce` | services/payment-service/src/payments/payments-saga.controller.ts:34-83 | However often one payment command is attempted, whichever attempts commit, wallets, rows and stored replies are those of the first committed attempt. |
| `PaymentService.RedeliveriesChargeNothing` | services/payment-service/src/payments/payments-saga.controller.ts:34-83 | Payment commands of any orders in any delivery sequence have the effect of the first committed delivery of each alone. |
| `Notification.Service.MarkSent` | services/notification-service/src/notification/notification.service.ts:41-52 | True if and only if the pair was not logged; afterwards it is. |
| `Notification.Service.NotifyOutcome` | services/notification-service/src/notification/notification.service.ts:16-30 | Sends one e-mail the first time and none again. |
| `Outbox.FindPending` | services/order-service/src/orders/infrastructure/persistence/typeorm-outbox.repository.ts:13-30 | Exactly min(10, due unlocked) distinct due rows, earliest first, none left out that is earlier than one taken. |
| `Outbox.SharedProcessor.ProcessPending` | packages/outbox/src/abstract-outbox-processor.service.ts:39-87 | A tick settles exactly its batch and publishes exactly the rows whose publication succeeded; a failed transaction restores the table but not what was sent; a concurrent tick does nothing. |
| `Outbox.SharedProcessor.PublishAll` | packages/outbox/src/abstract-outbox-processor.service.ts:53-80 | Table and publications after the loop, row by row. |
| `Outbox.OrderProcessor.ProcessPending` | services/order-service/src/orders/outbox-processor.service.ts:24-62 | The same for order-service's processor, through its repository. |
| `Outbox.OrderProcessor.PublishAll` | services/order-service/src/orders/outbox-processor.service.ts:31-55 | Table and publications after the loop, row by row. |
| `OutboxProperties.SettledRows` | packages/outbox/src/abstract-outbox-processor.service.ts:53-80 | A tick changes each row of its batch once, independently of the others, and no other row. |
| `OutboxProperties.TickSettlesRow` | packages/outbox/src/abstract-outbox-processor.service.ts:53-80 | What a committed tick of either processor does to one row, field by field: published with its time, retried after the back-off with its error, or given up. |
| `OutboxProperties.BackoffSchedule` | packages/outbox/src/abstract-outbox-processor.service.ts:69-70 | The back-off is 2, 4, 8, 16 s and so on, 300 s from the ninth attempt. |
| `OutboxProperties.TickSendsInOrder` | packages/outbox/src/abstract-outbox-processor.service.ts:44-61 | Within a tick messages go out earliest schedule first and no row twice. |
| `OutboxProperties.ProcessorsAgree` | packages/outbox/src/abstract-outbox-processor.service.ts:53-80 | From tables that agree, one tick of either processor sends the same and leaves tables equal in everything but the schedule of FAILED rows. |
| `OutboxProperties.ProcessorsAgreeForever` | services/order-service/src/orders/outbox-processor.service.ts:31-55 | Over any number of ticks, failed ones included, each processor can do exactly the ticks the other can, with the same publications and agreeing tables. |
| `OutboxProperties.SameRowIff` | services/order-service/src/orders/infrastructure/persistence/typeorm-outbox.repository.ts:32-60 | The two settle a row identically if and only if it was published, or is retried, or its schedule coincides with the back-off. |
| `OutboxProperties.EveryRunIsSound` | packages/outbox/src/abstract-outbox-processor.service.ts:39-87 | For maxRetries at least 1, in every state of every run of inserts and ticks of either processor: PUBLISHED rows were sent under their own id, only rows were sent, and PENDING rows have retryCount below maxRetries. |
| `OutboxProperties.TickUsesAttempts` | packages/outbox/src/abstract-outbox-processor.service.ts:67-79 | A committed tick lowers the sum of remaining attempts by at least the size of its batch. |
| `OutboxProperties.ServingTicksAreBounded` | packages/outbox/src/abstract-outbox-processor.service.ts:39-87 | Any serving ticks whatever number at most the attempts left. |
| `OutboxProperties.NothingLeftMeansSettled` | packages/outbox/src/abstract-outbox-processor.service.ts:72 | No attempts are left if and only if every row is PUBLISHED or FAILED. |
| `OutboxProperties.EveryRowEnds` | packages/outbox/src/abstract-outbox-processor.service.ts:39-87 | Whatever the publish outcomes and clocks of each tick, at most as many serving ticks as attempts left take the table to one where every row is PUBLISHED or FAILED. |
| `OutboxProperties.EveryOrderRowEnds` | services/order-service/src/orders/outbox-processor.service.ts:24-62 | The same for order-service's processor. |
| `OutboxProperties.ServingOrderTicksAreBounded` | services/order-service/src/orders/outbox-processor.service.ts:24-62 | Any serving ticks of order-service's processor number at most the attempts left. |
| `OutboxProperties.NothingToServeMeansSettled` | packages/outbox/src/abstract-outbox-processor.service.ts:44-51 | When at no time any row is found to serve, every row is PUBLISHED or FAILED. |
| `Outbox.BatchExists` | packages/outbox/src/abstract-outbox-processor.service.ts:44-51 | The query has a result for every table, time and set of locked rows. |
| `Consumer.KafkaConsumer.Dispatch` | packages/kafka/src/kafka.consumer.service.ts:51-113 | For m at least 1 the handler runs 1 to m times, until the first success; a dead letter is attempted if and only if all m attempts fail, with the last error; total back-off is 300 times (2 to the runs minus 1, minus 1) ms, at most that for m. |
| `Consumer.KafkaConsumer.Subscribe` | packages/kafka/src/kafka.consumer.service.ts:47-49 | Afterwards every topic finds what it found before; only a topic that found nothing finds the new subscription. |
| `Consumer.FindSubscription` | packages/kafka/src/kafka.consumer.service.ts:63-66 | The first subscription of the topic is found; none only if there is none. |
| `Consumer.KafkaConsumer.DispatchPayment` | packages/kafka/src/kafka.consumer.service.ts:75-94 | With the payment handler, 1 to m attempts have the effect of the first committed one alone, even when an attempt commits and is reported as failed; the dead letter is attempted if and only if all m are reported as failed. |
| `Persistence.OrderRepository.UpdateOrder` | services/order-service/src/orders/infrastructure/persistence/typeorm-order.repository.ts:38-51 | The order row and item rows after the partial-column update loop. |
| `Persistence.UpdateThenLoad` | services/order-service/src/orders/infrastructure/persistence/typeorm-order.repository.ts:38-51 | Updating with a transitioned order and loading gives back that order. |
| `Persistence.UpdateLeavesOthers` | services/order-service/src/orders/infrastructure/persistence/typeorm-order.repository.ts:38-51 | What loads for any other order is exactly what loaded before. |
| `Persistence.InsertThenLoad` | services/order-service/src/orders/infrastructure/persistence/typeorm-order.repository.ts:32-36 | A saved order with distinct item ids loads back as it was. |
| `Persistence.InsertLeavesOthers` | services/order-service/src/orders/infrastructure/persistence/typeorm-order.repository.ts:32-36 | Saving an order with fresh item ids changes what loads for no other order. |
| `Persistence.HandleTransformsEveryLoad` | services/order-service/src/orders/infrastructure/persistence/typeorm-order.repository.ts:17-51 | Whichever item order the handler happened to load, every possible load becomes its own transition. |
| `Persistence.LifeRefinesReplacement` | services/order-service/src/orders/infrastructure/persistence/typeorm-order.repository.ts:38-51 | Over any sequence of transitions, partial-column writes load as whole-order replacement would. |
| `Persistence.SagaUpdateThenLoadIff` | services/order-service/src/orders/infrastructure/persistence/typeorm-saga.repository.ts:51-64 | Writing the five saga columns loads back as the given saga if and only if the saga has the row's identity. |
| `Persistence.SagaTransitionsPersist` | services/order-service/src/orders/domain/entities/saga.ts:60-123 | Every saga transition is loaded back exactly after the five-column update. |
| `Persistence.SagaLifeRefinesReplacement` | services/order-service/src/orders/infrastructure/persistence/typeorm-saga.repository.ts:51-64 | Over any sequence of saga transitions, five-column writes load as whole-saga replacement would. |
| `ProductCache.BoundedStaleness` | services/product-service/src/products/products.service.ts:75-86 | In every interleaving, every value findById returns was a committed active row of that id, at most the time to live plus the duration of its fetch ago. |
| `ProductCache.HitIsAnswered` | services/product-service/src/products/products.service.ts:75-77 | A call that finds an entry at most ten minutes old ends with that entry's value and fetches nothing. |
| `ProductCache.MissWaits` | services/product-service/src/products/products.service.ts:79 | A call that finds nothing joins the fetch of its key, a new one only if there is none. |
| `ProductCache.ReadTakesTheRow` | services/product-service/src/products/products.service.ts:80-81 | A fetch reads the committed row if it is active; otherwise it ends, with its calls, without a value. |
| `ProductCache.FetchIsAnswered` | services/product-service/src/products/products.service.ts:82-84 | A fetch that has read returns the value it read, caches it unless the cache is away, and ends exactly the calls that waited for it. |
| `ProductCache.CallsEndAnswered` | services/product-service/src/products/products.service.ts:75-86 | In every run a call is over only when a value of its id is returned, or when the row of its id is found missing or inactive. |
| `ProductCache.OneFetchPerKey` | services/product-service/src/products/products.service.ts:29-35 | In every interleaving at most one fetch per key is in flight, the map holds exactly the keys of those fetches, and joined calls wait for a fetch of their own key. |
| `ProductCache.EvictionLeavesAWindow` | services/product-service/src/products/products.service.ts:143-151 | From any state with an active uncontended row, evicting, reading, committing and storing leaves the old value cached. |
| `ProductCache.CommitLeavesCurrentIff` | services/product-service/src/products/products.service.ts:143-157 | A commit leaves a key current if and only if at that moment nothing is cached for it and no fetch of it has already read. |
| `ProductCache.OnlyCommitsMakeStale` | services/product-service/src/products/products.service.ts:37-59 | No event other than a commit of that row makes a current key stale. |

## Left out

- Gateway, circuit breaker, guards, authentication, user profiles, PDF generation, health and tracing: wiring over libraries, or simple records.
- Admin changes of a product's stock (the unlocked read-modify-write in products.service.ts:93-101) and the HTTP reserve endpoint are not events of the composed system, because they move stock outside the saga; name, price and removal edits are. The endpoint's loop is `ReserveStockOwnTransaction`.
- Floating-point rounding and decimal overflow: money is exact; amounts inside error texts are therefore printed in cents.
- Creation and update timestamps, log lines, and the confirmedAt and cancelledAt texts: no behaviour depends on them.
- Row locks, lock waits and Kafka rebalances: transactions are atomic and serial.
- Liveness in general: nothing forces a message to be delivered, so the results are that every saga can finish (`EverySagaCanFinish` and the paths in `Progress.dfy`) and the termination bounds, not that it does.
- `PaymentDeclinedError` and the FAILED payment status: nothing in the code produces them.
- `OrderNotFoundError` is modelled where it is thrown; that the reply controller swallows it is not, since it is never thrown in a reachable state.
- Order.cancel (order.ts:57-71): no saga step calls it.
- Listing, pagination and request validation: reads and checks without state of their own.
- The product cache is modelled on values, as interleaved steps, because each await of one call lets other calls run; one recorded answer stands for all calls that joined a fetch.
- The orchestrator's classes hold whole orders and sagas keyed by the unique order id; that the repositories' partial-column writes amount to the same is proved separately in `Persistence.dfy`.
- The composed system publishes any written message at any time; the outbox tables with their retries are proved separately in `OutboxProperties.dfy`.
- Orchestrator.Service.Execute, PaymentService.Service.OpenWallet, PaymentService.Service.TopUpWallet: straight-line writes, proved equal to their transaction functions and used through `OrderedKeeps` and `WalletLedger`.
- Failure of the dead-letter send itself: the code only logs it, so the attempt is what `Dispatch` reports.
- Orchestrator.Service.FindStuck: the database's choice among more stuck sagas than the limit is left open, as the query gives no order.
