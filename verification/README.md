# Verified model of the commerce platform's core services

This project models, in Dafny, the parts of the platform where several pieces of state have to stay in
step, and proves what they promise over every input, every call and every run.

| files | what they model |
|---|---|
| `Common` | options, results, ids, finite sums, ordered listings |
| `Inventory` | the inventory service's tables (item rows, reservations, movement ledger, idempotency records) and the specification of its operations as functions on them |
| `StockInvariant`, `InventorySafety`, `InventoryRuns`, `InventoryConservation` | the stock invariant, every operation keeping it, whole runs, and conservation of stock over them |
| `Allocation`, `BatchReservation`, `InventoryGuarantees`, `Availability` | the closed form of the batch allocation, idempotent writes, the expiry sweep, reported availability |
| `InventoryAnswers`, `InventoryRequests` | who is told what by each inventory call, and which row, counter and movement it costs |
| `InventoryService` | the service as an object whose methods change rows one statement at a time, proved against `Inventory` |
| `Orders`, `Payments`, `KeyedPayments` | the order and payment state machines, as functions and as services changing rows in place; idempotency keys of payments and refunds whose calls overlap |
| `Checkout`, `Fulfilment`, `CheckoutSafety`, `CheckoutSteps`, `CheckoutTheorems`, `CheckoutStock`, `CheckoutLimits`, `CheckoutRefunds`, `OrderPaths`, `PaymentSteps`, `CheckoutWitnesses`, `CheckoutHandlers` | the three services together: calls that are delivered late, twice, out of order, answered, unanswered or lost, cancellations that race with them, and any other caller of Inventory; what holds over every run, what does not and runs that show it |
| `Routing`, `OpenApi`, `OpenApiDocs` | the gateway's route table, the OpenAPI renaming and merging built on it, and what the merged document shows |
| `Notifications`, `RateLimit`, `CircuitBreaker`, `Lockout` | the e-mail delivery state machine, the sliding-window limiter, the circuit breaker, the login lockout |
| `Carts`, `CartLaws`, `CartRows`, `ShoppingCart` | cart operations, their laws for quantities and for rows, and the cart service in place |
| `Money`, `CartOrders` | cents and decimals; what an order takes over from its cart, down to what is charged and shipped |

How it is put together:

- The source's services change rows in place; so do the classes here. Each method's contract says which value of
  a specification function the object holds afterwards, and the theorems are about those functions. Where `Checkout` splits
  a handler into steps, `CheckoutHandlers` proves that the steps come to the handler's function. A
  method that answers with an error leaves its object as it was (the transaction is rolled back), except
  on the two paths that commit and then raise, where a commit arrives after the reservation expired.
- `StockInvariant.Inv` is stored nowhere in the code. It says of every item that `reserved` is the sum
  of its ACTIVE reservations, that `0 <= reserved <= on_hand`, that replaying the item's movements from zero
  gives both counters, and that what was committed left on-hand stock once; of every reservation that its life cycle
  is sound; of every idempotency record that it points at what its request made.
- A run of the inventory service is any sequence of its calls by any callers at any times. A run of the
  checkout is any sequence of the actions in `Checkout.Action`: each callback is split into the call to the
  next service and the commit that may follow its answer, so that other actions can come in between and any answer
  can be lost. `cancel` is split into its unlocked read, its release and its write.
- A row lock is modelled by the transactions that are open on a row (`settling`, `handling`); a unique index by the map
  it makes possible; a CHECK constraint by the flush that fails when it is violated.

Where a promise one might read into the code fails, the exact condition under which it holds is proved, and an
input that misses it is given:

| what one might expect | exactly when | a failing input |
|---|---|---|
| REFUNDED is a final payment status | `CheckoutLimits.RefundedReopensIff` | `CheckoutWitnesses.RefundedThenReopened` |
| the order of a fully refunded payment keeps showing REFUNDED | `CheckoutRefunds.FullyRefundedShowsIff`, `CheckoutRefunds.RefundMarkFallsIff` | `CheckoutWitnesses.RefundedThenPartly` |
| a declined payment gives the stock back | `CheckoutLimits.DeclineReleasesIff` | `CheckoutWitnesses.DeclinedButCommitted` |
| a cancelled order gives the stock back | `CheckoutLimits.CancelReleasesIff` | `CheckoutWitnesses.CancelledAfterConfirmed`, `CheckoutWitnesses.CancelledWithoutConfirmed` |
| reported availability decides a line | `Availability.ReportDecidesIff` | `Availability.ReportMayOverstate` |
| a rewritten reference finds the rewritten target | `OpenApi.ReferencesPreserved` | `OpenApi.RefTextIsRewritten` |
| a PROCESSING notification moves on | `Notifications.StuckIff` | `Notifications.CrashLeavesProcessing` |

`cancel` accepts CONFIRMED orders and tolerates Inventory's 409, so cancelling a confirmed order always leaves its stock
COMMITTED (`CheckoutLimits.ConfirmedReleaseChangesNothing`). The stock of an order that was never confirmed can stay committed
too, if Inventory committed it and the answer was lost.

## Model

| member | source | states |
|---|---|---|
| `InventoryRuns.NoOversell` | services/inventory-service/app/services/inventory_service.py:264-1113 | Over every run and for every item: reserved is the sum of the ACTIVE reservations, on-hand stock is receipts plus adjustments less the COMMITTED quantities, and active plus committed never exceed what came in. |
| `InventoryConservation.StockConserved` | services/inventory-service/app/services/inventory_service.py:264-1113 | Over every run and for every item, counted from what callers asked for and not from the ledger: on-hand stock is all that successful creations and adjustments brought in less the COMMITTED quantities, and active plus committed never exceed it. |
| `InventoryConservation.CallInflow` | services/inventory-service/app/services/inventory_service.py:148-176 | Only creating and adjusting an item bring stock in, exactly as much as was asked for and only when they take effect; reserving, committing, releasing, expiring and replays bring in nothing. |
| `InventoryRuns.LedgerReplays` | services/inventory-service/app/services/inventory_service.py:148-176 | Over every run: folding an item's movements from zero gives its current counters; every movement's resulting counters are the fold of the ledger up to it; no movement has two zero deltas. |
| `InventoryRuns.LifeCycle` | services/inventory-service/app/services/inventory_service.py:883-1113 | Over every run: resolved_at is set iff the reservation is not ACTIVE, a COMMITTED one was resolved before it expired, an EXPIRED one not before; a resolved reservation never changes again, and quantity, item, group and expiry of any reservation never change. |
| `InventoryRuns.RunKeeps` | services/inventory-service/app/services/inventory_service.py:264-1113 | Every run, from any state that satisfies the stock invariant, ends in one that does, and only evolves what was there. |
| `InventoryRuns.CallKeeps` | services/inventory-service/app/services/inventory_service.py:264-1113 | Each of the ten operations keeps the stock invariant, whatever its arguments, caller and clock. |
| `InventoryRuns.CreateItemKeeps` | services/inventory-service/app/services/inventory_service.py:264-354 | Creating an item keeps the invariant; a refused request changes nothing. |
| `InventoryRuns.AdjustStockKeeps` | services/inventory-service/app/services/inventory_service.py:385-452 | An adjustment never takes on-hand stock below what is reserved, so it keeps the invariant; a refused one changes nothing. |
| `InventoryRuns.CreateReservationKeeps` | services/inventory-service/app/services/inventory_service.py:454-562 | A single reservation keeps the invariant; a refused one changes nothing. |
| `InventoryRuns.CreateBatchKeeps` | services/inventory-service/app/services/inventory_service.py:564-719 | A batch keeps the invariant; it either changes nothing or opens a new group of ACTIVE rows, and what it adds to the idempotency records is its own request only. |
| `StockInvariant.ReserveRowKeeps` | services/inventory-service/app/services/inventory_service.py:504-524 | Reserving no more than is available and inserting the row keeps the whole invariant. |
| `StockInvariant.ResolveRowKeeps` | services/inventory-service/app/services/inventory_service.py:1071-1113 | From a valid state, releasing or expiring an ACTIVE reservation never violates a CHECK constraint, keeps the invariant and changes that one reservation only. |
| `StockInvariant.CommitRowKeeps` | services/inventory-service/app/services/inventory_service.py:763-788 | From a valid state, committing an unexpired ACTIVE reservation never violates a CHECK constraint, keeps the invariant and changes that one reservation only. |
| `StockInvariant.OnHandIsInflowLessOutflow` | services/inventory-service/app/services/inventory_service.py:148-176 | For any ledger whose movements are of their kinds: replayed on-hand stock is receipts plus adjustments less commitments. |
| `Allocation.ShareIsGreedy` | services/inventory-service/app/services/inventory_service.py:642-664 | The closed form clamp(quantity - what earlier rows can give, 0, available) is, row by row, the minimum of what the row has and what is still missing. |
| `Allocation.TakesQuantity` | services/inventory-service/app/services/inventory_service.py:642-664 | After n rows the takes sum to the smaller of the line's quantity and what those rows can give. |
| `Allocation.LineServedInFull` | services/inventory-service/app/services/inventory_service.py:613-664 | If the line is not refused, its takes sum to exactly its quantity. |
| `Allocation.AtMostOnePartlyDrained` | services/inventory-service/app/services/inventory_service.py:642-664 | If a later row gives anything, every earlier row has given all it had: at most one row of a line is partly drained. |
| `Allocation.BatchTakesDistinct` | services/inventory-service/app/services/inventory_service.py:613-664 | With no (seller, sku) pair twice, no item row is taken from twice. |
| `Allocation.BatchSucceedsIff` | services/inventory-service/app/services/inventory_service.py:626-641 | The batch finds no error iff every line has rows and enough summed availability. |
| `Allocation.LineOrderIrrelevant` | services/inventory-service/app/services/inventory_service.py:613-664 | Permuting the lines changes neither what is taken of each item nor whether there is an error. |
| `BatchReservation.LedgerMayWait` | services/inventory-service/app/services/inventory_service.py:613-687 | Raising all counters first and writing one movement per touched item afterwards leaves the same tables, ledger included, as reserving row after row. |
| `BatchReservation.PairUntouched` | services/inventory-service/app/services/inventory_service.py:613-641 | The rows of a line are untouched by the lines before it, so the availability it sees is that of before the batch. |
| `InventoryGuarantees.BatchSucceedsExactly` | services/inventory-service/app/services/inventory_service.py:564-719 | Under a key not used before, a valid batch succeeds iff every line's pair has rows with enough summed availability. |
| `InventoryGuarantees.BatchItems` | services/inventory-service/app/services/inventory_service.py:613-664 | A successful batch raises each item's reserved counter and version by what the allocation takes of it, and changes nothing else of any item. |
| `InventoryGuarantees.BatchOrderIrrelevant` | services/inventory-service/app/services/inventory_service.py:564-719 | Two requests that differ in the order of their lines both succeed or both fail, and leave the same stock. |
| `InventoryGuarantees.BatchOutcome` | services/inventory-service/app/services/inventory_service.py:564-719 | A batch that fails, for whatever reason, leaves every table as it was; it fails iff its expiry or one of its lines is refused. |
| `InventoryGuarantees.AtMostOnce` | services/inventory-service/app/services/inventory_service.py:1166-1186 | Over every run: after a keyed write succeeded, the same actor, key and body changes nothing and is answered with the same resource, and another body under that key is refused and changes nothing, whichever of the four kinds either write is. |
| `InventoryGuarantees.SweepShrinksDue` | services/inventory-service/app/repositories/inventory_repository.py:156-172 | A sweep expires exactly the rows the query returned: min(limit, due rows nobody else holds) of them, and no due row that was free and left over expires earlier than those it took. |
| `InventoryGuarantees.CanFetchIff` | services/inventory-service/app/repositories/inventory_repository.py:156-172 | What the query can answer while other transactions hold rows: exactly any distinct due rows, within the limit and in order of expiry. Every run theorem covers sweeps with any such answer. |
| `InventoryGuarantees.SweepsDrain` | services/inventory-service/app/services/inventory_service.py:973-1026 | n sweeps at a fixed time, with no row held elsewhere, leave max(0, due - n * limit) due rows and change nothing but expired rows. |
| `InventoryGuarantees.SweepsComplete` | services/inventory-service/app/services/inventory_service.py:973-1026 | From a valid state, sweeps at a fixed time with room for all due rows and nothing held elsewhere leave none: each is EXPIRED, none is skipped or starved. |
| `InventoryGuarantees.ResolveFailsIff` | services/inventory-service/app/services/inventory_service.py:1071-1113 | Within the CHECK constraints, resolving a row fails iff its item's reserved counter has drifted below the row's quantity. |
| `InventoryGuarantees.SkippedRowLeavesNoTrace` | services/inventory-service/app/services/inventory_service.py:984-1024 | From any state, drifted or not: a sweep in which a row fails ends in exactly the tables it would have ended in without that row. |
| `InventorySafety.CommitGroupAllOrNone` | services/inventory-service/app/services/inventory_service.py:721-807 | A group commit commits all members or none, touches no other reservation, and its answer is decided by the members' statuses and the shared expiry; on the expired path all members are EXPIRED, on any other error nothing changes. |
| `InventorySafety.ReleaseGroupAllOrNone` | services/inventory-service/app/services/inventory_service.py:809-853 | A group release releases all members or changes nothing; it succeeds iff all are ACTIVE or all already RELEASED. |
| `InventorySafety.CommitReservationKeeps` | services/inventory-service/app/services/inventory_service.py:883-946 | Committing one reservation keeps the invariant; an error other than expiry changes nothing. |
| `InventorySafety.ReleaseReservationKeeps` | services/inventory-service/app/services/inventory_service.py:948-971 | Releasing one reservation keeps the invariant; an error changes nothing. |
| `InventorySafety.SweepKeeps` | services/inventory-service/app/services/inventory_service.py:973-1026 | From a valid state a sweep skips no fetched row: exactly the fetched rows become EXPIRED, and that many are reported. |
| `InventoryAnswers.CommitIsAnswered` | services/inventory-service/app/services/inventory_service.py:883-946 | From every valid state: whoever may resolve an ACTIVE row and commits it in time ships its quantity from both counters under the given order; once it is due, the row is EXPIRED, its stock given back and the caller told so; any other row or caller is refused and nothing changes. |
| `InventoryAnswers.ReleaseIsAnswered` | services/inventory-service/app/services/inventory_service.py:948-971 | From every valid state: whoever may resolve an ACTIVE row gives its stock back, due or not; any other row or caller is refused and nothing changes. |
| `InventoryAnswers.GroupCommitIsAnswered` | services/inventory-service/app/services/inventory_service.py:721-807 | From every valid state: who is answered what for a group commit; exactly its members change, each item loses exactly what they held of it, and the ledger has one entry for each, on the committed and on the expired path. |
| `InventoryAnswers.GroupReleaseIsAnswered` | services/inventory-service/app/services/inventory_service.py:809-853 | The same for a group release. |
| `InventoryRequests.ItemIsCreated` | services/inventory-service/app/services/inventory_service.py:264-354 | Under a new key an item is created iff the warehouse is in use, the catalog's active SKU is the caller's own (or the caller an admin) and the warehouse does not hold it yet; it is the only new row, starts with the initial quantity and has a receipt for it. |
| `InventoryRequests.ItemIsUpdated` | services/inventory-service/app/services/inventory_service.py:356-383 | An update succeeds iff the caller manages the item in the version it saw; what is not named stays. |
| `InventoryRequests.StockIsAdjusted` | services/inventory-service/app/services/inventory_service.py:385-452 | Under a new key an adjustment succeeds iff the caller manages the item in the version it saw, changes something and leaves at least what is reserved; on-hand stock and ledger change by just that. |
| `InventoryRequests.ReservationIsMade` | services/inventory-service/app/services/inventory_service.py:454-562 | Under a new key a reservation is made iff the item is active and has as much available, and the expiry lies in the allowed window; the one new row is the caller's, ACTIVE until then. |
| `InventoryRequests.BatchIsMade` | services/inventory-service/app/services/inventory_service.py:564-719 | Under a new key a batch is made iff its request is sound, its expiry allowed and every line servable; all its rows are new, of one new group, for its customer and until its expiry. |
| `Availability.ReportBoundsLine` | services/inventory-service/app/repositories/inventory_repository.py:99-111 | What a batch line can get is always reported as available. |
| `Availability.ReportDecidesIff` | services/inventory-service/app/repositories/inventory_repository.py:99-111 | The report decides every quantity a line of the seller can ask for iff the active rows of the SKU that belong to others hold nothing. |
| `Availability.ReportMayOverstate` | services/inventory-service/app/repositories/inventory_repository.py:99-111 | An inventory in which the other seller's rows do hold something, and a line that is refused although enough is reported. |
| `InventoryServices.InventoryService.CreateItem` | services/inventory-service/app/services/inventory_service.py:264-354 | The in-place method leaves the tables and gives the answer of its specification. |
| `InventoryServices.InventoryService.UpdateItem` | services/inventory-service/app/services/inventory_service.py:356-383 | The in-place update of threshold and active flag, guarded by ownership and version, leaves the tables and gives the answer of its specification; a refusal changes nothing. |
| `InventoryServices.InventoryService.AdjustStock` | services/inventory-service/app/services/inventory_service.py:385-452 | The in-place adjustment of the on-hand counter with its movement and record leaves the tables and gives the answer of its specification, replays included. |
| `InventoryServices.InventoryService.CreateReservation` | services/inventory-service/app/services/inventory_service.py:454-562 | Counter, row, movement and record, changed one after the other, leave the tables and give the answer of the specification, replays included. |
| `InventoryServices.InventoryService.TakeRows` | services/inventory-service/app/services/inventory_service.py:642-664 | The loop over a line's rows, with its running remainder, takes the closed-form shares and remembers each touched row as it was. |
| `InventoryServices.InventoryService.TakeLines` | services/inventory-service/app/services/inventory_service.py:613-664 | The loop over the lines stops with the error of the first line that cannot be served, or has applied exactly the closed-form takes of all lines. |
| `InventoryServices.InventoryService.LogTouched` | services/inventory-service/app/services/inventory_service.py:668-687 | The movements computed from the change since before the batch are those of the takes, one per touched item. |
| `InventoryServices.InventoryService.CreateBatchReservation` | services/inventory-service/app/services/inventory_service.py:564-719 | The batch as one transaction: loops, ledger, record and rollback together meet the specification. |
| `InventoryServices.InventoryService.CommitReservationGroup` | services/inventory-service/app/services/inventory_service.py:721-807 | The loop over the members, with rollback on a rejected flush, meets the specification of the group commit. |
| `InventoryServices.InventoryService.ReleaseReservationGroup` | services/inventory-service/app/services/inventory_service.py:809-853 | The loop over the members, with rollback on a rejected flush, meets the specification of the group release. |
| `InventoryServices.InventoryService.CommitReservation` | services/inventory-service/app/services/inventory_service.py:883-946 | The in-place commit of one row meets its specification, including the path that expires the row, commits that and then raises. |
| `InventoryServices.InventoryService.ReleaseReservation` | services/inventory-service/app/services/inventory_service.py:948-971 | The in-place release of one row meets its specification; a refusal changes nothing. |
| `InventoryServices.InventoryService.ExpireReservations` | services/inventory-service/app/services/inventory_service.py:973-1026 | The sweep's loop with a savepoint per row meets the specification, and counts the rows it expired. |
| `Orders.ConfirmKeeps` | services/order-service/app/service.py:271-311 | Confirming a PENDING_PAYMENT order keeps the order invariant and records CONFIRMED in its history. |
| `Orders.DeclineKeeps` | services/order-service/app/service.py:313-346 | Declining a PENDING_PAYMENT order keeps the order invariant and records PAYMENT_FAILED in its history. |
| `Orders.RefundKeeps` | services/order-service/app/service.py:348-392 | An accepted refund callback keeps the order invariant, and an order that was paid stays marked as paid; the refund marks themselves may go back (see `CheckoutRefunds.RefundMarkFallsIff`). |
| `Orders.FulfillmentKeeps` | services/order-service/app/service.py:394-420 | A fulfilment step only follows a confirmed order's path and keeps the order invariant. |
| `Orders.CancelKeeps` | services/order-service/app/service.py:235-269 | The write of a cancellation, made on whatever the order has become since it was read, keeps the order invariant and the history. |
| `Orders.OrderService.PaymentAuthorized` | services/order-service/app/service.py:271-311 | The in-place handler: idempotent on CONFIRMED, refused when status, amount or currency do not fit, otherwise the order is confirmed iff Inventory committed the group; `CheckoutHandlers.AuthorizedIsHandled` gives Inventory's real answer. |
| `Orders.OrderService.PaymentFailed` | services/order-service/app/service.py:313-346 | The in-place handler: idempotent on PAYMENT_FAILED, otherwise the order is declined iff the release was not refused; `CheckoutHandlers.FailedIsHandled` gives Inventory's real answer. |
| `Orders.OrderService.PaymentRefunded` | services/order-service/app/service.py:348-392 | The in-place handler: the new row, or the refusal with nothing changed. |
| `Orders.OrderService.Fulfillment` | services/order-service/app/service.py:394-420 | The in-place handler: the new row, or the refusal with nothing changed. |
| `Orders.OrderService.CancelRead` | services/order-service/app/service.py:235-258 | The unlocked read: which orders a cancellation accepts, without changing them. |
| `Orders.OrderService.CancelCommit` | services/order-service/app/service.py:259-269 | The write goes by the version read earlier and by the status the order has now. |
| `OrderPaths.HistoryIsPath` | services/order-service/app/service.py:448-469 | Over every run, whatever races: an order's history starts with PENDING_PAYMENT, goes from status to status only as the state machine allows, and ends with the order's status. |
| `OrderPaths.PathShape` | services/order-service/app/service.py:394-420 | Such a history is, up to its first cancellation, the beginning of the way to DELIVERED or of the way to PAYMENT_FAILED, with nothing but cancellations after. |
| `OrderPaths.CancelOpensIff` | services/order-service/app/service.py:235-254 | Over every run: a request to cancel is taken up iff it names the order's version and the order was never processed, shipped, delivered, declined or cancelled; otherwise nothing changes. |
| `OrderPaths.CancelWritesIff` | services/order-service/app/service.py:255-269 | Over every run: CANCELLED is written iff the release was answered and no handler holds the order, over whatever the order has become, with the version read at the start plus one. |
| `OrderPaths.FulfilledIff` | services/order-service/app/service.py:394-420 | Over every run: a fulfilment call moves an order on iff its status is the next one on the order's way after CONFIRMED. |
| `OrderPaths.ConfirmedIff` | services/order-service/app/service.py:271-311 | Over every run: a payment callback confirms its order iff the order is new and Inventory's answer says that its group is committed; it is accepted iff that or the order is CONFIRMED; its amount is never the reason to refuse it. |
| `OrderPaths.DeclinedIff` | services/order-service/app/service.py:313-346 | Over every run: a failure callback declines its order iff the order is new and the release was made or met a 409; it is accepted iff that or the order is PAYMENT_FAILED. |
| `OrderPaths.AuthorizedIsAnswered` | services/order-service/app/service.py:271-311 | For any amount, currency and answer of Inventory: which callbacks are accepted, told from the order's history, and that a repeated one changes nothing. |
| `OrderPaths.FailedIsAnswered` | services/order-service/app/service.py:313-346 | The same for failure callbacks. |
| `OrderPaths.RefundIsAnswered` | services/order-service/app/service.py:348-392 | A refund callback is accepted iff the order was ever confirmed, in its currency and within its total; only the mark and the version change. |
| `Payments.RefundConserves` | services/payment-service/app/services/payment_service.py:151-239 | A successful refund adds to the refunds, never beyond the amount; REFUNDED iff all is refunded, PARTIALLY_REFUNDED iff strictly less. |
| `Payments.PaymentService.CreateRefund` | services/payment-service/app/services/payment_service.py:124-239 | The in-place method: which refunds are refused, and that a refused one changes nothing. |
| `Payments.PaymentService.HandleWebhook` | services/payment-service/app/services/payment_service.py:243-313 | A recorded event is ignored; an event that changes nothing is recorded; otherwise the payment is settled and the event recorded iff Order accepted, and a refusal leaves both for the next delivery; `CheckoutHandlers.WebhookIsHandled` gives Order's real answer. |
| `PaymentSteps.WebhookAsksIff` | services/payment-service/app/services/payment_service.py:243-288 | Over every run: a webhook asks Order iff its event is new, no transaction is open on the payment and the status is not yet the one reported; it asks with the order's own total. |
| `PaymentSteps.WebhookSettlesIff` | services/payment-service/app/services/payment_service.py:266-313 | Over every run: a payment is settled iff Order accepted the request and the event was not recorded meanwhile; its refunds stay. |
| `PaymentSteps.EventTakesEffectOnce` | services/payment-service/app/services/payment_service.py:248-256 | Over every run: once an event is recorded, no delivery of it changes a payment or asks Order. |
| `PaymentSteps.PaymentMadeIff` | services/payment-service/app/services/payment_service.py:69-111 | Over every run of the checkout: a payment is made iff the order has none and costs something, and charges the order's total. |
| `PaymentSteps.RefundMadeIff` | services/payment-service/app/services/payment_service.py:151-238 | Over every run of the checkout: a refund is made iff the payment was paid, is not locked by a webhook and has as much left; Order is told all that was refunded so far. |
| `PaymentSteps.CheckoutPaymentIsKeyed` | services/payment-service/app/services/payment_service.py:75-111 | The checkout's step writes the payment that the keyed call writes when the quote is the order's total and currency. |
| `PaymentSteps.CheckoutRefundIsKeyed` | services/payment-service/app/services/payment_service.py:151-238 | The checkout's refund step writes what the keyed call writes, and Order is told iff it was made. |
| `KeyedPayments.KeyTakesEffectOnce` | services/payment-service/app/services/payment_service.py:47-67 | Over every run, with calls under one key overlapping at will: after one of them has made a payment or a refund, no step of any call under that key writes anything; the same request is answered with what was made, another one is refused, and a call that had already passed the lookup fails. |
| `KeyedPayments.MadeOnceStays` | services/payment-service/app/services/payment_service.py:132-149 | What a keyed call made stays what it was: a payment keeps its customer, a refund row its payment, amount and reason, so a replay has the same answer for ever. |
| `KeyedPayments.RefundRowsConserved` | services/payment-service/app/services/payment_service.py:165-205 | Over every run, whatever webhooks do: a payment's refunds are exactly its refund rows, and together never exceed its amount. |
| `KeyedPayments.FinishKeeps` | services/payment-service/app/services/payment_service.py:103-112 | The writing half keeps rows and records in step: an error rolls everything back, and a record inserted meanwhile under the same key is an error. |
| `KeyedPayments.UnkeyedRepeatsIff` | services/payment-service/app/services/payment_service.py:126-239 | Without a key, repeating a successful refund refunds again iff it named an amount that fits twice. |
| `KeyedPayments.PaymentIsAnswered` | services/payment-service/app/services/payment_service.py:37-113 | A payment is made iff the order has none, is quoted as payable with a positive total, the provider answers and the key is unused; it charges what was quoted and is the caller's; a replay is answered with the order's payment; whatever else is asked changes nothing. |
| `KeyedPayments.RefundIsAnswered` | services/payment-service/app/services/payment_service.py:124-216 | A refund is made iff the payment is the caller's (or the caller an admin), was paid, has as much left, the provider answers and the key is unused; amount, status, refund row and record are stated; whatever else is asked changes nothing. |
| `KeyedPayments.PaymentTurnsUp` | services/payment-service/app/services/payment_service.py:90-111 | Over every run: a payment appears only by a call for its order that was carried through; it is the only new row and has the quoted total and currency, PENDING, nothing refunded, and the caller as customer. |
| `KeyedPayments.PaymentFinishesIff` | services/payment-service/app/services/payment_service.py:69-111 | Over every run: a call that passed the lookup is told Ok iff no payment and no record turned up meanwhile, the order is payable with a positive total and the provider answers. |
| `KeyedPayments.KeyedPaymentService.CreatePayment` | services/payment-service/app/services/payment_service.py:39-112 | Lookup, guards, row and record in place, rolled back on an error, meet the two halves run in one go. |
| `KeyedPayments.KeyedPaymentService.CreateRefund` | services/payment-service/app/services/payment_service.py:124-216 | Lookup, guards, refund row, payment row and record in place, rolled back on an error, meet the two halves run in one go. |
| `CheckoutHandlers.AuthorizedIsHandled` | services/order-service/app/service.py:271-311 | In the protocol, taking up a payment-authorized request and finishing it changes the order row as the handler does, with `committed` being that Inventory's own group commit succeeded and its answer arrived; Inventory's tables change by that commit and by nothing else. |
| `CheckoutHandlers.FailedIsHandled` | services/order-service/app/service.py:313-346 | The same for payment-failed, with `released` being that Inventory's own release succeeded or met a 409 and its answer arrived. |
| `CheckoutHandlers.WebhookIsHandled` | services/payment-service/app/services/payment_service.py:243-313 | In the protocol, opening a webhook transaction and closing it changes payments and recorded events as the handler does, whatever Order does in between, with `accepted` being that Order came to accept the very request sent. |
| `Fulfilment.BatchServesLines` | services/inventory-service/app/services/inventory_service.py:613-664 | A batch that succeeds takes of each (seller, sku) pair exactly what its lines ask of it. |
| `Fulfilment.GroupQuantityStays` | services/inventory-service/app/services/inventory_service.py:1071-1113 | What a group holds of each pair never changes after it was created, whatever happens to its rows. |
| `Fulfilment.NewGroupServesLines` | services/inventory-service/app/services/inventory_service.py:564-719 | The group a batch opens holds, pair by pair, what was asked for. |
| `CheckoutTheorems.StepKeeps` | services/order-service/app/service.py:59-420 | Every action of the checkout protocol keeps the invariant that ties the three services together, and only evolves orders, payments and reservations. |
| `CheckoutTheorems.PaymentAgreesWithOrder` | services/payment-service/app/services/payment_service.py:243-313 | In every reachable world: a payment that succeeded has an order that was CONFIRMED, never PAYMENT_FAILED, and now is CONFIRMED, PROCESSING, SHIPPED, DELIVERED or CANCELLED; a FAILED payment has one that was PAYMENT_FAILED and never CONFIRMED; amounts and currencies agree. |
| `CheckoutTheorems.PaymentNeverCrosses` | services/payment-service/app/services/payment_service.py:266-313 | Over every run with duplicated, reordered, refused and unanswered webhooks no payment goes from success to FAILED or back. |
| `CheckoutTheorems.ConfirmedOrderIsShipped` | services/order-service/app/service.py:271-311 | In every reachable world: the group of an order that was ever confirmed is COMMITTED in all its rows, what was committed of each pair is what the order asked for, and on-hand stock is what came in less the committed quantities. |
| `CheckoutTheorems.GroupServesOneOrder` | services/order-service/app/service.py:59-225 | No reservation group ever serves two orders. |
| `CheckoutTheorems.DeadGroupNeverConfirms` | services/order-service/app/service.py:271-311 | Once any member of an order's group is RELEASED or EXPIRED, the order was not and never will be confirmed. |
| `CheckoutTheorems.RefundsAreHonest` | services/payment-service/app/services/payment_service.py:151-239 | In every reachable world: refunds never exceed the payment, the payment's refund status tells the truth, and an order that shows REFUNDED has been refunded in full. |
| `CheckoutTheorems.RefundCallbackNeverRejected` | services/order-service/app/service.py:362-392 | Whenever a refund callback reaches Order, late, repeated or out of order, Order accepts it. |
| `CheckoutRefunds.ShowsLastTold` | services/order-service/app/service.py:348-392 | Over every run: an order that was told of no refund shows none; any other shows REFUNDED iff the last callback to reach it carried its whole total, and PARTIALLY_REFUNDED otherwise. |
| `CheckoutRefunds.RefundMarkFallsIff` | services/order-service/app/service.py:378-382 | Over every run: a step turns a REFUNDED order into a PARTIALLY_REFUNDED one iff it delivers a refund callback of that order that carries less than its total; no step takes the mark away altogether. |
| `CheckoutRefunds.FullyRefundedShowsIff` | services/payment-service/app/services/payment_service.py:205-238 | The order of a fully refunded payment shows REFUNDED iff the last callback it was told is the one with the whole amount: callbacks leave after the commit and may overtake each other or get lost. |
| `CheckoutRefunds.OthersKeepMarks` | services/order-service/app/service.py:235-420 | No step but a refund callback sets a refund mark or takes one away, whatever races with it. |
| `CheckoutTheorems.ChargedAsPriced` | services/order-service/app/service.py:124-153 | In every reachable world a payment's amount is the rounded sum of its order's line totals, and with whole-cent prices exactly the sum over the lines of quantity times unit price in cents. |
| `CheckoutStock.CheckoutConservesStock` | services/order-service/app/service.py:59-420 | Over every checkout run: on-hand stock is all that successful creations and adjustments brought in less the COMMITTED quantities, and active plus committed never exceed it; no order, payment or cancellation brings any in. |
| `CheckoutLimits.CancelReleasesIff` | services/order-service/app/service.py:235-269 | In every reachable world: after a cancellation's call the group is RELEASED iff it was before, or all of it was ACTIVE and the call arrived from someone who may resolve the customer's reservations; the cancellation goes on to write CANCELLED iff such a caller got an answer. |
| `CheckoutLimits.ConfirmedReleaseChangesNothing` | services/order-service/app/service.py:247-260 | Once an order was confirmed, a release of its group by anyone is refused and changes no table: cancelling it leaves the stock committed. |
| `CheckoutLimits.ReleaseReleasesIff` | services/inventory-service/app/services/inventory_service.py:809-853 | A release leaves the group RELEASED iff it was, or all of it was ACTIVE and the caller may; others' calls and calls on a COMMITTED group change nothing; it is answered with success or a 409 iff the caller may. |
| `PaymentSteps.AbandonReleasesIff` | services/order-service/app/service.py:180-208 | Over every run: a creation that could not be persisted gives its stock back iff its call reaches Inventory from someone who may make it and the group is ACTIVE, or it was released before. |
| `CheckoutWitnesses.CancelledAfterConfirmed` | services/order-service/app/service.py:235-269 | A run that ends with a CANCELLED order that was confirmed and whose group is COMMITTED. |
| `CheckoutWitnesses.CancelledWithoutConfirmed` | services/order-service/app/service.py:293-309 | A run that ends with a CANCELLED order that was never confirmed and whose group is COMMITTED: Inventory's answer was lost. |
| `CheckoutWitnesses.DeclinedButCommitted` | services/order-service/app/clients.py:178-191 | A run that ends with a PAYMENT_FAILED order whose group is COMMITTED, and before it a world with that order PENDING_PAYMENT and a group no longer ACTIVE. |
| `CheckoutWitnesses.RefundedThenReopened` | services/payment-service/app/services/payment_service.py:266-288 | A run that reaches a REFUNDED payment with a CONFIRMED order, and goes on to a SUCCEEDED payment all of which was refunded. |
| `CheckoutWitnesses.RefundedThenPartly` | services/payment-service/app/services/payment_service.py:205-238 | A run with two refunds whose callbacks overtake each other: the order shows REFUNDED, and then PARTIALLY_REFUNDED, although its payment is fully refunded. |
| `CheckoutLimits.RefundedReopensIff` | services/payment-service/app/services/payment_service.py:266-288 | A success event for a REFUNDED payment makes it SUCCEEDED again, with its refunds in place, iff the order still is CONFIRMED. |
| `CheckoutLimits.DeclineReleasesIff` | services/order-service/app/clients.py:178-191 | The release made for a failed payment is never refused, and leaves the group RELEASED iff all of it was ACTIVE or RELEASED before. |
| `Routing.Resolve` | services/api-gateway/app/services/routing.py:71-78 | The loop returns the longest matching prefix of the table, or nothing if none matches. |
| `Routing.ResolutionUnique` | services/api-gateway/app/services/routing.py:71-78 | A path resolves to at most one route. |
| `Routing.InternalPathsBlocked` | services/api-gateway/app/services/routing.py:22-68 | No path below the internal prefix resolves to any service. |
| `Routing.RoutedIff` | services/api-gateway/app/services/routing.py:71-78 | A path is routed iff it is an entry's prefix with nothing behind it or a slash; a longer name that only begins like a prefix is not. |
| `Routing.BelowIsRouted` | services/api-gateway/app/services/routing.py:71-78 | Everything at or below an entry is routed, to that entry or to one with a longer prefix that it lies below too. |
| `OpenApi.ReferencesPreserved` | services/api-gateway/app/services/openapi_aggregator.py:30-64 | Looking up a rewritten reference in the namespaced document gives the rewritten target of the original one, and there is a target iff there was one; the only exception, stated exactly, is a pointer that ends on the text of another reference (section 4.8.23 of OpenAPI 3.1.0, section 4 of RFC 6901). |
| `OpenApi.RefTextIsRewritten` | services/api-gateway/app/services/openapi_aggregator.py:46-58 | The exception of the row above occurs: a document and a reference that ends on the text of another reference, which does not find it as it was. |
| `OpenApi.OtherPointersPreserved` | services/api-gateway/app/services/openapi_aggregator.py:30-64 | Pointers to anything but component schemas keep their meaning, with the same exact exception. |
| `OpenApi.WalkRewritten` | services/api-gateway/app/services/openapi_aggregator.py:46-58 | Following any tokens through a rewritten value leads to the rewritten target, through arrays and escaped names alike. |
| `OpenApi.PrefixedNeverCollides` | services/api-gateway/app/services/openapi_aggregator.py:30-44 | Prefixed schema names of different services, or of different schemas, are different. |
| `OpenApi.NoCollision` | services/api-gateway/app/services/openapi_aggregator.py:67-83 | Two services contribute no common path and no common schema name. |
| `OpenApi.Build` | services/api-gateway/app/services/openapi_aggregator.py:97-160 | The merge loop loses nothing and adds nothing: every service's paths and schemas are there unchanged, and the unreachable services are listed. |
| `OpenApi.MergeOrderIrrelevant` | services/api-gateway/app/services/openapi_aggregator.py:117-127 | The merged paths and schemas do not depend on the order of the services. |
| `OpenApi.ServicesMergeable` | services/api-gateway/app/services/openapi_aggregator.py:97-127 | The gateway's own list of services satisfies what the merge needs. |
| `OpenApiDocs.DocsShowWhatIsProxied` | services/api-gateway/app/services/openapi_aggregator.py:67-83 | The aggregated document shows exactly what the gateway passes on: a path is in it iff a reachable service documents it and the route table resolves it to that very service. |
| `OpenApiDocs.DocsHaveAllSchemas` | services/api-gateway/app/services/openapi_aggregator.py:63-66 | A schema is in the aggregated document iff a reachable service has it, under the service's name and an underscore. |
| `OpenApiDocs.UnreachableIff` | services/api-gateway/app/services/openapi_aggregator.py:117-121 | Exactly the services that gave no document are listed as unreachable. |
| `Notifications.DeliveryBudget` | services/notification-service/app/email_service.py:411-624 | Over every interleaving of sends, retries, cancels and crashes: at most (resets + 1) * max(1, max_retry_count) provider calls; retry_count within its bound; attempts numbered 1 to n, of which only the last can be SENT. |
| `Notifications.FinalStatuses` | services/notification-service/app/email_service.py:962-1002 | Once SENT or CANCELLED, nothing ever changes the row. |
| `Notifications.CrashIsStuck` | services/notification-service/app/email_service.py:411-545 | A row left in PROCESSING by a dead worker is never sent, retried or cancelled again. |
| `Notifications.StuckIff` | services/notification-service/app/email_service.py:962-1002 | A PROCESSING row stays as it is whatever happens iff no worker is left that could still finish its attempt. |
| `Notifications.CrashLeavesProcessing` | services/notification-service/app/email_service.py:454-462 | Such a row is reached: a worker dies after committing PROCESSING. |
| `Notifications.SendBeginsIff` | services/notification-service/app/email_service.py:411-470 | After any run: a sending begins iff the row is an e-mail, due, and PENDING, RETRYING, or FAILED with retries left; otherwise nothing changes. |
| `Notifications.NothingSentEarly` | services/notification-service/app/email_service.py:433-450 | Over every run: the provider is called for e-mails only and never before the schedule. |
| `Notifications.SendFinishesAs` | services/notification-service/app/email_service.py:862-959 | After any run: a finished attempt is numbered next and recorded with its result; the row is SENT iff it was delivered, RETRYING iff the failure may be retried within the maximum, FAILED otherwise. |
| `Notifications.RetryGrantedIff` | services/notification-service/app/email_service.py:547-587 | After any run: a retry is granted iff the row is FAILED or RETRYING with retries left, or with its count reset. |
| `Notifications.CancelledIff` | services/notification-service/app/email_service.py:589-624 | After any run: a row is cancelled iff no attempt is open and none was delivered. |
| `Notifications.RetryCountMeans` | services/notification-service/app/email_service.py:905-959 | Over every run: retry_count is the number of rejected attempts since it was last reset. |
| `Notifications.EmailService.BeginSending` | services/notification-service/app/email_service.py:411-470 | Which rows may be sent and when; the attempt number is fixed before the call to the provider. |
| `Notifications.EmailService.RecordSuccess` | services/notification-service/app/email_service.py:862-903 | The attempt and the row become SENT. |
| `Notifications.EmailService.RecordProviderFailure` | services/notification-service/app/email_service.py:905-959 | The retry is counted and the row becomes RETRYING iff the failure is retryable and the budget not used up. |
| `Notifications.EmailService.RetryNotification` | services/notification-service/app/email_service.py:547-587 | Which rows may be retried, and the reset of the counter. |
| `Notifications.EmailService.CancelNotification` | services/notification-service/app/email_service.py:589-624 | Which rows may be cancelled; cancelling twice changes nothing. |
| `RateLimit.WindowBound` | services/assistant-service/app/middleware/rate_limit.py:59-98 | For every key, over the whole run, every interval (s, s + window] holds at most `limit` admissions. |
| `RateLimit.RateLimiter.Dispatch` | services/assistant-service/app/middleware/rate_limit.py:59-98 | After pruning, the deque is exactly the key's admissions in (now - window, now]; the request is admitted iff they are fewer than the limit; the answer's retry time; other keys' deques do not change. |
| `CircuitBreakers.CircuitBreaker.IsOpen` | services/api-gateway/app/services/circuit_breaker.py:38-44 | The small state answers what the whole history says: open iff the trailing run of failures reaches the threshold and the last failure is less than the cooldown ago. |
| `CircuitBreakers.CircuitBreaker.RecordSuccess` | services/api-gateway/app/services/circuit_breaker.py:46-49 | The state after a success is that of the longer history. |
| `CircuitBreakers.CircuitBreaker.RecordFailure` | services/api-gateway/app/services/circuit_breaker.py:51-58 | The state after a failure is that of the longer history. |
| `CircuitBreakers.KeysIndependent` | services/api-gateway/app/services/circuit_breaker.py:35-58 | Events of other keys change nothing for a key. |
| `CircuitBreakers.AttemptsAreSpaced` | services/api-gateway/app/services/circuit_breaker.py:38-58 | With non-overlapping calls to a dead upstream, attempts after the first `threshold` are at least the cooldown apart. |
| `CircuitBreakers.EarlyCallsGoThrough` | services/api-gateway/app/services/circuit_breaker.py:38-58 | The first `threshold` calls all reach the upstream. |
| `CircuitBreakers.GoesThroughIff` | services/api-gateway/app/services/circuit_breaker.py:38-58 | A call to a dead upstream goes through iff fewer than `threshold` have failed or the cooldown since the last failure is over, from that very moment on. |
| `Lockout.LockoutBound` | services/auth-service/app/routes.py:551-623 | Without a success or a password change in between, any max_failed_login_attempts + 1 consecutive wrong passwords span at least the lock duration, so a half-open window of that length holds at most max_failed_login_attempts. |
| `Lockout.LoginIsAnswered` | services/auth-service/app/routes.py:551-623 | After any run, told from the times of the wrong passwords that counted: LockedOut iff the lock set by the last of them still stands, whatever the password; else WrongPassword iff it is wrong, LoggedIn iff it is right and the account active and verified. |
| `Lockout.LockHolds` | services/auth-service/app/routes.py:553-561 | A lock holds for its whole duration: no login in it counts, whatever its password, and the row stays as it is. |
| `Lockout.Account.LogIn` | services/auth-service/app/routes.py:551-623 | The in-place counter and lock follow the login function, branch by branch. |
| `CartLaws.AddExactly` | services/cart-service/app/services/cart_service.py:183-267 | Adding succeeds iff the request, the cart and the limits allow the new total; then that variant's quantity grows by what was added and nothing else changes. |
| `CartLaws.MoveExactly` | services/cart-service/app/services/cart_service.py:370-414 | Moving a saved variant back succeeds iff one more piece fits; it adds one piece and forgets the saved entry; neither the number of distinct items nor the currency matters. |
| `CartLaws.LeaveExactly` | services/cart-service/app/services/cart_service.py:305-368 | Removing or saving an item takes all pieces of its variant out and no others; saving remembers the variant once. |
| `CartLaws.MergeExactly` | services/cart-service/app/services/cart_service.py:500-571 | A merge succeeds iff both carts are usable and no variant exceeds the limit in sum; then each variant has the sum of both quantities, the saved variants are united, and the guest's cart is closed with its contents untouched. |
| `CartLaws.MergeItemsOrigin` | services/cart-service/app/services/cart_service.py:512-546 | After a merge the customer's items are in place with their own price; the added ones are the guest's, at the guest's price. |
| `CartRows.MergeWrites` | services/cart-service/app/services/cart_service.py:512-546 | A merge in full: each of the customer's rows gets the pieces the guest has of its variant and keeps its price; the guest's other rows follow in order as new ones, at their price. |
| `CartLaws.MergedOnce` | services/cart-service/app/services/cart_service.py:506-508 | A merged guest cart cannot be merged again, into any cart. |
| `CartLaws.RunKeepsCarts` | services/cart-service/app/services/cart_service.py:90-618 | Over every run of all operations on all carts, merges between them included, in every cart: no variant twice, among items or saved items, and every quantity in 1..max. |
| `CartLaws.NoLostUpdate` | services/cart-service/app/services/cart_service.py:69-79 | Over every run on all carts, two client writes that took effect on the same cart never carried the same expected version. |
| `CartRows.RunKeepsIds` | services/cart-service/app/services/cart_service.py:90-618 | Over every run of all operations on all carts: an id names one item and one saved entry. |
| `CartRows.AddWrites` | services/cart-service/app/services/cart_service.py:183-267 | An added variant shows its current price, on the row it has or on a new one; no other row changes, and the cart's time starts anew. |
| `CartRows.QuantityIsSet` | services/cart-service/app/services/cart_service.py:274-303 | A quantity is set iff it is within both bounds, the cart is usable and the item is there; only that row and the version change. |
| `CartRows.ItemLeaves` | services/cart-service/app/services/cart_service.py:305-368 | An item leaves iff the cart is usable and has it; its row goes, the others stay in order, and saving keeps its price unless the variant is saved already. |
| `CartRows.SavedMovesBack` | services/cart-service/app/services/cart_service.py:370-414 | A saved entry moves back iff the cart is usable, has it and has room for one piece more; it shows its current price. |
| `CartRows.SavedIsDropped` | services/cart-service/app/services/cart_service.py:416-441 | A saved entry is forgotten iff the cart is usable and has it; nothing else changes. |
| `CartRows.ClearEmpties` | services/cart-service/app/services/cart_service.py:573-590 | Clearing a usable cart takes every piece out and keeps what is saved. |
| `CartRows.OrderCloses` | services/cart-service/app/services/cart_service.py:592-618 | An order closes a cart iff it is active, has not run out and holds something; afterwards no write and no order is taken for it. |
| `CartRows.PricesAreRefreshed` | services/cart-service/app/services/cart_service.py:443-498 | Readiness succeeds iff the cart is usable and every price is known; each item then shows its current price, and the version is raised iff one did not. |
| `CartRows.NewCartIs` | services/cart-service/app/services/cart_service.py:90-104 | A new cart is empty and runs out after its kind's time. |
| `ShoppingCarts.ShoppingCart.MergeGuest` | services/cart-service/app/services/cart_service.py:500-571 | Both loops in place, rolled back as a whole on an error, meet the merge function for both carts. |
| `ShoppingCarts.ShoppingCart.AddItem` | services/cart-service/app/services/cart_service.py:183-267 | The in-place method meets its function; an error leaves the cart as it was. |
| `ShoppingCarts.ShoppingCart.UpdateQuantity` | services/cart-service/app/services/cart_service.py:274-303 | Setting an item's quantity in place meets its function: bounds, version check, unknown item; an error leaves the cart as it was. |
| `ShoppingCarts.ShoppingCart.RemoveItem` | services/cart-service/app/services/cart_service.py:305-329 | Taking an item out in place meets its function; an error leaves the cart as it was. |
| `ShoppingCarts.ShoppingCart.SaveForLater` | services/cart-service/app/services/cart_service.py:331-368 | Moving an item to the saved ones in place, without saving a variant twice, meets its function. |
| `ShoppingCarts.ShoppingCart.MoveSavedToCart` | services/cart-service/app/services/cart_service.py:370-414 | Moving a saved variant back in place, onto its item or as a new one, meets its function. |
| `ShoppingCarts.ShoppingCart.DeleteSaved` | services/cart-service/app/services/cart_service.py:416-441 | Forgetting a saved entry in place meets its function; an unknown one is an error that changes nothing. |
| `ShoppingCarts.ShoppingCart.CheckReadiness` | services/cart-service/app/services/cart_service.py:443-498 | The price-refreshing loop in place; the version is raised iff some price was stale. |
| `ShoppingCarts.ShoppingCart.Clear` | services/cart-service/app/services/cart_service.py:573-590 | Emptying the cart in place keeps the saved items and raises the version. |
| `ShoppingCarts.ShoppingCart.MarkCheckedOut` | services/cart-service/app/services/cart_service.py:592-618 | The order's checkout call closes an active, unexpired, non-empty cart, and is refused for any other. |
| `Money.RoundingError` | services/payment-service/app/services/stripe_client.py:19-23 | For any decimal the conversion to cents is off by at most half a cent. |
| `Money.RoundsTo` | services/payment-service/app/services/stripe_client.py:19-23 | Rounding in full: to the nearest cent, and from halfway away from zero. |
| `Money.ConversionsInverse` | services/payment-service/app/services/stripe_client.py:19-27 | Cents to decimal and back is the identity; decimal to cents and back is iff the decimal is in whole cents. |
| `Money.ChargeIsExact` | services/order-service/app/service.py:124-153 | With whole-cent prices the amount charged is exactly the sum over the lines of quantity times unit price in cents. |
| `Money.GrandTotalIsLineTotals` | services/order-service/app/service.py:133-152 | The subtotal of any priced lines is the sum of their line totals. |
| `CartOrders.OrderTakesCartSubtotal` | services/cart-service/app/schemas/cart.py:98-120 | The subtotal a cart shows, in cents, is the total of the order made of its items, and the sum of that order's line totals. |
| `CartOrders.CartMakesValidBatch` | services/order-service/app/service.py:101-121 | A cart that keeps its laws makes a batch the inventory service's schema accepts iff it has 1 to 100 items of at most a million pieces and no seller offers two of its variants under one SKU. |
| `CartOrders.CartIsChargedAndShipped` | services/order-service/app/service.py:98-153 | Over every run: an order written from a cart's items costs the cart's subtotal and its payment charges just that; once it was confirmed, what Inventory has committed for it is, item by item, the quantity that was in the cart. |

## Left out

Reductions in what is modelled:

- A reservation's row number stands for its id, and a group is named after its first row. So the members of a group are
  visited in insertion order; with random ids the order differs, which shows only in the order of ledger rows.
- Item ids of the source are random; here they are given, and their order is the order rows are listed in.
- Each call reads the clock once; the code reads it again when it stamps `resolved_at` on the expired paths, a little later.
- The SHA-256 of a request is taken to be injective: a record remembers the request itself.
- The map from pairs to rows that the batch builds first is replaced by the query for one pair; the rows are locked, so they do not
  change in between.
- Catalog and warehouse rows appear only as arguments of item creation. Audit logs, outbox events and
  low-stock events are left out; they add bookkeeping only.
- Roles and ownership appear only as guards that may refuse a call.
- Other inventory calls in the checkout, batches included, may come from anyone at any time, which also covers a call that is
  carried out after its caller gave up. Only a batch that carries the number of an order whose random id has not been drawn yet is
  left out.
- An order's id is drawn fresh for each creation, and its number is unique. The unique index on customer and cart, and the
  idempotent replay of order creation, are left out. So is the cart service's part in it.
- Payments are keyed by order (there is a unique index). Payment intents and provider refunds always come back with
  some answer; a provider error leaves everything as it was. The idempotency key handed on to the provider is left out: whether the
  provider answers is an argument.
- `Checkout` has no idempotency keys for payments and refunds: by `KeyedPayments.KeyTakesEffectOnce` a replay writes nothing.
- Who sells a variant, and under which SKU, is an argument in `CartOrders`.
- Money is in whole cents in `Payments` and `Checkout`; sub-cent refund amounts and zero-decimal currencies are not modelled.
- A reference's fragment is split and unescaped as it stands; the percent-decoding of section 6 of RFC 6901 is left out. It does not
  touch the prefix, which is plain ASCII.
- Only the `$ref` text of component schemas is rewritten, as in the code: discriminator mappings keep their old names. Security
  schemes are merged by the code with the last one winning; they are left out, as are the gateway's cache and its HTTP calls.
- `namespace_schema` rewrites a deep copy in place; `Namespace` computes the rewritten value. The copy is not shared, so
  aliasing does not matter.
- Of a notification the error message, the provider's fields and the sent and failed times are left out. A crash can come at any
  point between the two commits of a sending.
- Logins are atomic: two that overlap on one row can each read the same counter, which the code does not lock.
- Password hashes and tokens are foreign: whether a password was right is an argument.
- The idempotent replay of adding an item to a cart and the products' names and images are left out. What the product
  service answers is an argument. A cart is one row; which cart a customer or a guest's token resolves to is an argument too.
- Which rows a sweep fetches among those with the same expiry is the database's choice. Any answer it can give is covered, whatever rows
  other transactions hold; only the bounds on how many sweeps it takes assume that nothing else holds rows.
- Liveness across services is not claimed: for example, a creation retried after its persist was lost meets a conflict in Inventory.
- Catalog, category, warehouse and shipment records, the assistant, the portal, templates and mail transport are not modelled.

Contracts stated weaker than they might be:

- CheckoutLimits.DeclineReleasesIff: only the call to Inventory is described; that the release happens at all depends on the webhook
  being delivered.
- InventoryGuarantees.SweepsComplete: sweeps at one fixed time, with nothing else in between; with new rows falling due there is
  no bound to state.
