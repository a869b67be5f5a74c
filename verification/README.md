# Game-market backend: a verified model

The backend sells codes. A payment webhook makes an order `paid`, and the orders table is the
delivery queue. Workers run every item of an order through a chain of suppliers that may lie, stay
silent or answer 5xx after booking; an item ends delivered or refunded, with ledger postings and
history events written alongside. This project models that core in Dafny and proves what it keeps.

`dafny verify dfyconfig.toml` checks everything.

## How the model is laid out

- **Tables and transactions.** `Tables` holds the rows and every transaction as a function from
  tables to tables; `Storage` holds the same tables as fields that statements rewrite, and
  proves each sequence of statements to be its function. `Books` and `Consistency` say what the
  tables keep; `Transactions` and `Queue` prove that every transaction keeps it. `Checkout` prices
  and writes a new order.
- **A. The fulfilment step machine.** `Machine` has any number of workers, each remembering what it
  read, and one step per committed transaction or remote call: create, webhook, claim, read,
  confirm, deliver, decide, document, provider call, settle, judge, finish, write the event, retry,
  select for requeueing, sweep, die, and suppliers booking codes on their own. `Safety` proves its
  invariant, `Guarantees` and `Payments` what a reader may rely on, `History`, `Past`, `Replays`,
  `Truth`, `Statuses` and `SingleWorker` what replay and period totals tell, `Witnesses` the schedules
  in which something does go wrong.
- **B. One worker's pass.** `Suppliers` and `Provider` are the outside world; `Service` is the
  delivery service with its loops over suppliers, rounds and attempts. Before every statement and
  every remote call there is an await at which all other workers may do anything they do to other
  orders, in-flight requests may land, and the process may die. `Evidence`, `Passing`, `Requests`,
  `Replies`, `Outcomes`, `Rounds`, `Chain`, `PassResults` and `OrderResults` carry the reasoning as lemmas about facts,
  `Bookings` traces the suppliers' books to the log, `Leftovers` says what a pass leaves in them;
  `Lifetime` runs a process for any number of steps; `Interference` proves that what a pass expects of the others is what the others do;
  `Worker` has the queue's order and the wake-up folding. Chance is a sequence of draws fixed
  beforehand, so results hold for every sequence, and `Transcripts` has the runs in which chance is
  as unkind as it can be. Parts A and B write the tables through the same functions of `Tables`.
- **C. Two sliding windows.** `Limiter` (a swept table) and `SupplierStub` (an array shifted in
  place) are proved against windows of the whole history, by way of `Windows`. `SupplierStub` also
  has the stub's book and key pool; `StubAsSupplier` holds it against what part B assumes.
- **D. Audit and catalog.** `Audit` checks statements against the tables while passes go on between
  its reads; `Findings` says when what it finds is false, `Races` has the runs. `Storefront` pages through the
  catalog.

## Where the code and its documentation part

- `backend/src/orders/order-transition.ts:8-10` says that every transition leaves its event in the
  same transaction. Three callers pass the plain manager (`backend/src/delivery/delivery.service.ts:152-159`,
  `backend/src/delivery/delivery.service.ts:630-675`, `backend/src/orders/orders.service.ts:225-232`),
  which makes two commits. The model has two commits there. Consequences, none of which needs a
  crash: an order's replayed status differs from the live one when a verdict or a retry has no event
  yet or lost it, and also for good when an owed event is written after the order has moved on. One
  worker per order does not prevent that, because an operator's retry can pass between a verdict and
  its event. `Statuses.ReplayedStatus` gives the exact condition, `Witnesses.AStatusToldLate` a
  schedule; it contradicts `backend/src/history/order-event.entity.ts`, by which folding the rows
  gives the order's state. An item's replay shows `pending` for `refunding` while the decision's
  event is missing, and with two live workers on one order it can be written after the refund it led
  to (`Truth.ReplayIsTheTruthUnlessLate`, `Witnesses.ALateDecision`).
- `backend/src/delivery/delivery.service.ts:304-306` asks the book before leaving a supplier so that
  no customer ends up with two codes, and `backend/src/delivery/delivery.service.ts:374-381` expects
  the next pass to come back to a supplier whose `ok` could not be checked for want of a slot. It
  comes back only to suppliers left unanswered; an `ok` leaves nobody open. So a later pass begins
  with the preferred supplier again, and both book a code: after a crash (`Transcripts.TwoCodes`) and
  without any failure (`Transcripts.TwoCodesWithoutFailure`). `Service.DeliveryService.RunPass` says
  what must have happened before when another supplier holds a code for a settled item, and no pass
  adds to it: an uncut one loses no call, one that dies loses one at most, and none of its items' ids
  becomes a stray.
- `backend/src/delivery/delivery.service.ts:324-341` takes an empty book after an `error` as final,
  on the ground that nothing can be under way after a 5xx. `backend/src/delivery/supplier.client.ts:170-192` reports a
  connection that breaks after sending as `error` too, and that request may still be served
  (`Transcripts.LateCode`; `Service.DeliveryService.Issue` has the condition).
- The audit's findings speak of "never requested" and "settled without this code", but it reads
  deliveries and requests in separate statements, and a call becomes an attempt only after its
  answer: both findings can be false, exactly when `Findings.UnknownRequestIsFalse` and
  `Findings.UnusedIssueIsFalse` say (`Races`).
- The recovery sweep selects without a lock and updates without looking at the status again, so it
  can reopen an order that became final in between (`Guarantees.FinalLeftOnlyByStaleSweep`,
  `Witnesses.StaleSweepReopensADeliveredOrder`). Exactly-once and the money survive it.
- `backend/src/delivery/delivery.service.ts:287-288` relies on suppliers looking a request id up
  before anything else. The stub looks at `unavailableSkus` first; `SupplierStub.Stub.Issue` says
  exactly when its `out of stock` hides a booked code. In `Suppliers` it is a contract that `out of
  stock` means an empty book at that moment.
- `backend/src/delivery/supplier.client.ts:40-47` promises that a lookup is always prepaid. With a
  limit of one an issue call can only take one slot (`Outcomes.CallsAgainstSlots`,
  `Transcripts.UnpaidLookup`).
- `backend/src/delivery/delivery.worker.ts:52-53` promises an extra pass for a folded wake-up; it is
  lost when the running drain throws (`Worker.WakeSignal.DrainEnds`).
- `moneyBetween` with its ends swapped reports `balanced: false` unless nothing changed
  (`History.SwappedPeriod`, `Witnesses.ASwappedPeriodDoesNotBalance`).

## Modelling assumptions

- Database transactions are atomic, row and advisory locks serialise, append-only tables only grow.
- `now` is a parameter of each transaction and arbitrary, except that the two windows need clock
  readings that do not go back under the lock (`Limiter.SupplierLimiter.Fits`) or within the
  process (`SupplierStub.WindowCounter.Admit`). There is one integer clock: the limiter's code cuts
  the database's microseconds to milliseconds, so the slot time it names can lie up to 1 ms early.
  The usage view needs neither: both of its clocks are free (`Limiter.SupplierLimiter.ReadUsage`).
- Item ids and supplier names contain no colon and ids are unique, as UUIDs and the configuration
  give; configuration does not change during a run; there is at least one supplier, attempt ≥ 1.
- A supplier's book is write-once per request id. A request answered by a 5xx books nothing any
  more; one that timed out or whose connection broke may still land later. Nobody but this backend
  uses its ids, which all begin with the id of their item.
- A call counts as made once it is sent, and as written down once its attempt is committed; until
  then, and for ever after a crash in between, its id counts as lost. What other workers left in the
  books without their logs explaining it counts as strays. At rest these are exactly the entries
  explained neither by a log nor by a lost call (`Service.DeliveryService.Rest`), and there are none
  for a process that began on empty books and works alone (`Lifetime.AloneItExplainsAll`). The ids of
  new items have never been used before.
- Other workers ask the payment provider only about items that are being given back, at their price;
  that this worker does too is proved (`Provider.RefundIsOwed`, kept through `Lifetime.Live`).
- Part B and the single-worker results assume what `backend/src/delivery/recovery.service.ts:47-48`
  assumes: an order in `delivering` is not taken over while its worker lives. Part A does not.
- A recovery sweep may select any `delivering` or `delivery_failed` order; that only adds schedules
  to those its thresholds allow. Likewise part A lets a worker claim any due order.

## Model

| member | source | states |
|---|---|---|
| `Guarantees.ExactlyOnce` | backend/src/delivery/delivery.service.ts:513-612 | In every state reachable by any number of workers (stale ones included), sweeps, operator retries, webhooks, dishonest suppliers and crashes at any commit boundary: an item is delivered iff it has its delivery row and exactly one delivery posting pair, refunded iff it has its refund row and exactly one refund pair, never both; the provider paid it at most once, the right amount, only while it is being given back, and did pay every refunded item. |
| `Guarantees.DeliveredAsBooked` | backend/src/delivery/delivery.service.ts:364-446 | In every reachable state every delivered code is the entry of its supplier's write-once book under a request id made for that very item and supplier, and neither code nor request id is shared with another delivery. |
| `Guarantees.MoneyAddsUp` | backend/src/ledger/ledger.service.ts:63-99 | In every reachable state, its two queries read at one moment, `balances()` is balanced, every paid order's amount is its delivered, refunded and open items' and its cash and revenue postings match them, so that no order shows up in `moneyMismatches`, and a final order has nothing open. |
| `Guarantees.BalancesReadApart` | backend/src/ledger/ledger.service.ts:63-99 | With its two queries in two reachable states `balances()` is balanced iff paid, delivered and refunded totals did not change between them. |
| `Guarantees.OtherLedgersAreListed` | backend/src/admin/reconciliation.service.ts:54-77 | Over the orders of any reachable state and any ledger whatever, `moneyMismatches` lists exactly the paid orders whose cash or revenue that ledger shows differently. |
| `Guarantees.OtherDeliveriesAreListed` | backend/src/admin/reconciliation.service.ts:42-53 | Over any reachable state with any deliveries whatever, `deliveredNotPaid` lists exactly the items whose delivery is missing and those delivered in an order never paid for. |
| `Guarantees.AlwaysHealthy` | backend/src/admin/reconciliation.service.ts:42-141 | With each query of the reconciliation report in a reachable state of its own, the "must be empty" lists are empty and the ledger balances iff no other supplier has booked another code under a delivered request id (the report joins on the id alone) and no money moved between the ledger's two queries; with one entry per request id, the primary key of the books' table, there is no such supplier. |
| `Guarantees.PeriodsReconcile` | backend/src/history/history.service.ts:137-189 | A period with from ≤ to, its four queries in four reachable states: `eventsAgree` iff the ledger's part of the period did not change between the first two, `balanced` iff cash and revenue gained nothing on balance by what came into the period, or the time before it, between the queries; both always hold at one moment. |
| `Guarantees.PaidOnce` | backend/src/payments/payments.service.ts:30-121 | At most one event per order is ever applied; the order is paid iff that event says `paid`; the payment pair exists iff it does, with the order's amount. |
| `Guarantees.RepeatsChangeNothing` | backend/src/payments/payments.service.ts:32-52 | Any schedule ends in the same state as the schedule with every later repeat of an event id removed, whatever the repeats say. |
| `Guarantees.FinalLeftOnlyByStaleSweep` | backend/src/delivery/recovery.service.ts:66-80 | A step takes an order out of a final status iff it is a sweep acting on what its unlocked SELECT saw earlier. |
| `Witnesses.StaleSweepReopensADeliveredOrder` | backend/src/delivery/recovery.service.ts:66-80 | Such a sweep is reachable: a concrete schedule in which a delivered order goes back to `paid`. |
| `Truth.ReplayIsTheTruthUnlessLate` | backend/src/history/history.service.ts:44-110 | After any schedule, crashes between an UPDATE and its event included, an item's replay (status, code, supplier, refund amount, reason) equals the live tables iff its decision event was neither written after somebody else had refunded the item nor is still missing; a missing one shows only as `pending` for `refunding`. |
| `Truth.ReplayedMoney` | backend/src/history/history.service.ts:90-109 | Without a late decision an order's replayed paid, delivered, refunded and pending totals are its live ones, which are what the ledger has for the order: the first three as posted, pending what is left of them. |
| `SingleWorker.ExclusiveRunsAreNeverLate` | backend/src/delivery/recovery.service.ts:47-48 | When an order is claimed only while nobody else holds it, no decision is ever written late. |
| `SingleWorker.ReplayIsTheTruth` | backend/src/orders/orders.service.ts:144-188 | Hence with a single live worker per order an item's replay is its live view, but for `pending` in place of `refunding` while the decision's event is missing, and the order's replayed totals are its live ones. The order's status is `Statuses.ReplayedStatus`. |
| `Statuses.ReplayedStatus` | backend/src/history/history.service.ts:44-110 | After any schedule an order's replayed status is the one its last event named, and it is the live one iff the order has neither been finished or retried silently into another status since, nor was that event an owed one written when the order had already moved on. |
| `Statuses.PunctualStatus` | backend/src/orders/order-transition.ts:8-10 | If no order moves on while a worker owes its event, the replayed status is the live one iff the order was not finished or retried since its last event. |
| `Witnesses.AStatusToldLate` | backend/src/delivery/delivery.service.ts:645-659 | A concrete schedule with one holder per order, no crash and every worker idle at the end: the order is `paid`, its replay says `delivery_failed`, because the verdict's event was written after an operator's retry. |
| `Witnesses.ALateDecision` | backend/src/delivery/delivery.service.ts:152-159 | The exception is reachable: a concrete schedule with two workers on one order that writes a decision late. |
| `Safety.StepKeeps` | backend/src/delivery/delivery.service.ts:82-683 | Every step of every worker, enabled or not, keeps the whole invariant and only moves rows forward. |
| `Safety.RunsAreSafe` | backend/src/delivery/delivery.worker.ts:79-121 | The invariant holds after every schedule. |
| `Transactions.CompleteKeeps` | backend/src/delivery/delivery.service.ts:513-545 | A completion that commits took a pending item, a free code and a free request id, and keeps the tables consistent. |
| `Transactions.CompleteSucceeds` | backend/src/delivery/delivery.service.ts:513-545 | For a pending item and its own request, completion commits unless the code is already somebody else's, and then it says so. |
| `Transactions.CompleteWrites` | backend/src/delivery/delivery.service.ts:519-545 | The whole new state of a completion, table by table; no other delivery had its code or its request id. |
| `Transactions.CompleteReports` | backend/src/delivery/delivery.service.ts:513-545 | A completion reports the code as taken iff some delivery has it and the item itself has none. |
| `Transactions.RefundKeeps` | backend/src/delivery/delivery.service.ts:578-601 | Booking a refund commits iff the item is still `refunding`, and keeps the tables consistent. |
| `Transactions.RefundWrites` | backend/src/delivery/delivery.service.ts:578-601 | The whole new state of a booked refund, table by table. |
| `Transactions.DecideKeeps` | backend/src/delivery/delivery.service.ts:152-159 | The decision turns the pending item to `refunding` with its reason, changes nothing else, and keeps the tables consistent. |
| `Transactions.OwnRequestsAreFree` | backend/src/delivery/delivery.entity.ts:29-30 | A request id made for an undelivered item is never taken by another delivery. |
| `Queue.CreateKeeps` | backend/src/orders/orders.service.ts:68-102 | Creating an order keeps the tables consistent. |
| `Queue.CreateWrites` | backend/src/orders/orders.service.ts:68-102 | A creation writes one open item per unit at its price, an order of their sum in the request's currency, and its event; none without units. |
| `Queue.WebhookWrites` | backend/src/payments/payments.service.ts:85-121 | What a first-time event is answered, iff by iff on the event and the order it names: not found, ignored with the order's status, amount mismatch, or applied; and what that writes: a payment or its failure, or only the recorded outcome. |
| `Payments.FailedIffItsEventFailed` | backend/src/payments/payments.service.ts:98-106 | After any schedule an order is `payment_failed` iff the event applied to it is a failed one. |
| `Payments.FirstVerdictStands` | backend/src/payments/payments.service.ts:85-121 | An event recorded when its order is there, failed or saying just what the order costs, settles it for good over every continuation: as it says if the order was still `created`, as an earlier one did otherwise. |
| `Queue.WebhookKeeps` | backend/src/payments/payments.service.ts:30-66 | A webhook never aborts, records every new event id, changes nothing for a repeated one, and keeps the tables consistent. |
| `Queue.ClaimKeeps` | backend/src/delivery/delivery.worker.ts:98-121 | A claim succeeds iff the order is paid and its `not_before`, if any, has come; it writes `delivering` and its event and keeps the tables consistent. |
| `Queue.RequeueKeeps` | backend/src/delivery/recovery.service.ts:62-82 | The sweep writes `paid` and its event and nothing else; that is harmless to items and money even when the order has moved on since it was selected. |
| `Queue.MoveKeeps` | backend/src/orders/order-transition.ts:11-39 | A compare-and-set move between paid statuses succeeds iff the status is the expected one, writes status and extra column only, and keeps the tables consistent, given that a final verdict is the true one. |
| `Consistency.StatusKeeps` | backend/src/orders/order-transition.ts:21-31 | An order's own status may change freely among the paid ones without touching exactly-once or money. |
| `Books.PairKeepsLogs` | backend/src/ledger/ledger.service.ts:39-58 | A posting pair and the event that explains it move both logs alike under every filter by order and time. |
| `RequestIds.RequestIdsInjective` | backend/src/delivery/delivery.service.ts:217-222 | No two (item, supplier, round) triples share a request id. |
| `RequestIds.RequestIdReads` | backend/src/delivery/delivery.service.ts:217-222 | Round 1 is item and supplier; a later round appends a numeral that reads as its number. |
| `RequestIds.DecimalReadsBack` | backend/src/delivery/delivery.service.ts:222 | The round number written into a request id reads back. |
| `History.StateAt` | backend/src/history/history.service.ts:44-110 | The loop over events returns the fold of the selected events; which moment that is the state of says `Past.StateAtIsThePast`. |
| `Past.StateAtIsThePast` | backend/src/history/history.service.ts:44-53 | Over every schedule and every prefix of it: if what the prefix wrote about an order is stamped at a moment or before and the rest after it, the order looked up at that moment is the replay of the prefix, and nothing iff the order was created later. |
| `History.PeriodsAddUp` | backend/src/history/history.service.ts:137-148 | Movements over [a,b) plus [b,c) are the movements over [a,c), sums and counts alike. |
| `History.PeriodReconciles` | backend/src/history/history.service.ts:160-177 | The same for any four tables, those of the later queries with agreeing logs. |
| `History.PeriodReadApart` | backend/src/history/history.service.ts:137-158 | The four queries of `moneyBetween`, read at four moments, give what one moment gives, provided everything written in between is stamped at `to` or later. |
| `History.SwappedPeriod` | backend/src/history/history.service.ts:137-170 | With from > to the period is `balanced` iff none of the three balances changed in between. |
| `Witnesses.ASwappedPeriodDoesNotBalance` | backend/src/history/history.service.ts:137-170 | A reachable state with a period, ends swapped, that is not `balanced`. |
| `Storage.Database.Create` | backend/src/orders/orders.service.ts:68-104 | The statements of order creation have exactly the modelled effect, or fail and change nothing. |
| `Checkout.Place` | backend/src/orders/orders.service.ts:43-104 | The checks of a placement and which one answers: nothing asked, first unknown sku, mixed currencies; an accepted order has one item per unit at the catalog's price, and its amount is quantity times price over its lines. A rejected one writes nothing. |
| `Checkout.UnitsCost` | backend/src/orders/orders.service.ts:62-76 | The sum of the units' prices is quantity times price over the lines, a line without a quantity counting once. |
| `Storage.Database.Handle` | backend/src/payments/payments.service.ts:30-66 | Record, apply, write the outcome; rolled back as a whole when it throws. |
| `Storage.Database.CompleteItem` | backend/src/delivery/delivery.service.ts:513-545 | The four statements of a completion, undone together; `false` exactly for a code already delivered. |
| `Storage.Database.RefundItem` | backend/src/delivery/delivery.service.ts:578-601 | The statements of a refund booking, undone together. |
| `Suppliers.SupplierClient.Issue` | backend/src/delivery/supplier.client.ts:55-111 | What an answer to `POST /issue` is worth, for any sequence of draws: which replies may have booked a code, which may still be served (a timeout or a broken connection), which cannot have done anything, and the slots paid. |
| `Suppliers.SupplierClient.Lookup` | backend/src/delivery/supplier.client.ts:113-136 | A found code is the book's entry; a 404 means there is none. |
| `Provider.PaymentProvider.Refund` | backend/src/stubs/payment/payment-stub.service.ts:36-55 | At most one payout per refund id, of the amount asked for; an acknowledged refund was paid out. |
| `Provider.RefundIsOwed` | backend/src/delivery/delivery.service.ts:560-570 | Asking for the price of an item that is being given back, whether the call is recorded or not, leaves every payout owed: one per item, at its price; and the item paid if it was recorded. |
| `Evidence.AttemptKeeps` | backend/src/delivery/delivery.service.ts:448-477 | Writing an attempt leaves at most that supplier open and touches no other item. |
| `Evidence.RejectionKeeps` | backend/src/delivery/delivery.service.ts:479-509 | Writing a rejection appends the next round's id to the rejected ones of that item and supplier. |
| `Evidence.NextRoundIsNew` | backend/src/delivery/delivery.service.ts:242-247 | A round's rejection is never swallowed as a repeat, so counting rejections counts rounds. |
| `Evidence.FindingKeeps` | backend/src/delivery/delivery.service.ts:479-509 | A finding that rejects nothing changes no item's facts. |
| `Chain.StillOpen` | backend/src/delivery/delivery.service.ts:186-192 | The loop over the attempt log computes the open suppliers in the order they became so. |
| `Evidence.OpenIsTheLastWord` | backend/src/delivery/delivery.service.ts:165-168 | A supplier is open iff the last attempt that reached it was a timeout or an error, a broken connection included. |
| `Chain.OneIsOpen` | backend/src/delivery/delivery.service.ts:182-192 | Read off tables that are ready for a pass: at most one supplier is open per item, a configured one. That every step keeps tables ready is `Lifetime.Live`. |
| `Chain.ChainCovers` | backend/src/delivery/delivery.service.ts:169-200 | The chain asks every configured supplier exactly once, the open one first and flagged, the preferred one first among the others. |
| `Requests.RejectedIdsAreNotPresentedAgain` | backend/src/delivery/delivery.service.ts:213-247 | Of any two calls for one item at one supplier the later never presents an id rejected before the earlier, and both carry the same id iff nothing was rejected in between. |
| `Requests.CallsOfOthersDiffer` | backend/src/delivery/delivery.service.ts:217-222 | Two calls carry the same id iff item, supplier and round are the same. |
| `Requests.OwnRoundIsNotRejected` | backend/src/delivery/delivery.service.ts:214-222 | The id presented is never one already rejected. |
| `Service.DeliveryService.Await` | backend/src/delivery/delivery.service.ts:82-101 | What any await leaves: the rest of the order as it was, findings, payouts and calls only growing, book entries unchanged, and exactly which entries count as strays from there on, none of them under the order's own ids; the only exception is a crash. |
| `Service.DeliveryService.Issue` | backend/src/delivery/delivery.service.ts:252-359 | Whatever the replies: what log, book and findings show behind each outcome; on a supplier not flagged open, `failed` only if no call of this run timed out, and then none is in flight and none left a book entry, provided no connection broke either; the last answer heard decides: a deferral names the slot a refusal named, a code is the one answered or shown; a finding is made of a code booked in spite of an error and of nothing else; at most `maxAttempts` calls and one lookup, paid for. |
| `Service.DeliveryService.Attempts` | backend/src/delivery/delivery.service.ts:265-300 | The attempt loop: the outcome is `issued` with a code iff the last call was answered `ok` with it, deferred until a moment iff the last call was refused until then, out of stock iff it was answered so; otherwise exactly `maxAttempts` calls were made, none definite, and the two flags say whether a timeout or an error was heard; without either nothing was ever sent. |
| `Rounds.StillUndecided` | backend/src/delivery/delivery.service.ts:288-294 | What one more indefinite answer adds to what is known of a round: flags, log and shelf stay in step. |
| `Rounds.BookSettles` | backend/src/delivery/delivery.service.ts:307-359 | What the book's answer settles once no call did, read off the log: `failed` leaves nothing that was not under way before, open in spite of an empty book only after a timeout of this run at a supplier not flagged. |
| `Transcripts.LateCode` | backend/src/delivery/supplier.client.ts:170-192 | A run without crash or timeout in which a connection breaks after the request was sent, the empty book is taken for final and the fallback sells its code: both suppliers have booked one. |
| `Service.DeliveryService.AskTheBook` | backend/src/delivery/delivery.service.ts:307-359 | After unanswered calls one lookup decides, outcome, attempt and finding determined by what it shows and by whether a call timed out: taken, definitely empty, open, or deferred until the slot it was refused until. |
| `Service.DeliveryService.Accept` | backend/src/delivery/delivery.service.ts:364-446 | What one lookup shows determines the outcome and the findings made: the booked code is delivered unless the deliveries know it already, a mismatch is a finding and nothing else is, an unbooked code is rejected, a failed lookup leaves only its supplier open, a refused one defers until the slot it names. |
| `Service.DeliveryService.TurnDown` | backend/src/delivery/delivery.service.ts:428-445 | A rejected round: the finding, then the attempt, nobody open. |
| `Service.DeliveryService.CompleteItem` | backend/src/delivery/delivery.service.ts:513-545 | With a single worker completion throws nothing: it delivers, or reports the code as somebody else's. |
| `Service.DeliveryService.TrySupplier` | backend/src/delivery/delivery.service.ts:207-240 | What each supplier outcome means in log, rejections and book, the exhausted-rounds case included; a supplier left with a no holds nothing new under any id of the item, unless a call of this pass under it was left open or the id was rejected and written down, and an id that was asked under is booked only if its request was under way before; behind each outcome the last answer heard, a deferral iff it was a refusal; at most rounds × attempts issue calls and one lookup per round, every call within the slots spent. |
| `Service.DeliveryService.RejectedRounds` | backend/src/delivery/delivery.service.ts:242-247 | The count of rejections is the number of rounds used up, never more than the maximum. |
| `Service.DeliveryService.SupplierChain` | backend/src/delivery/delivery.service.ts:169-200 | The chain built from catalog and attempt log, as `ChainCovers` describes it. |
| `Service.DeliveryService.TryChain` | backend/src/delivery/delivery.service.ts:109-151 | An item is given up only after every configured supplier gave a definite no in this pass, with reason `out_of_stock` iff every last word was that; however the chain ends, no supplier but the last one asked is left with anything new under any id of the item, that last one is the seller or the only one open, and when everybody said no there is no exception; within suppliers × rounds × attempts issue calls. |
| `Service.DeliveryService.DecideRefund` | backend/src/delivery/delivery.service.ts:152-159 | Decision and event are two commits, the event the last in the history, with amount and reason; the conditional update never misses with a single worker. |
| `Service.DeliveryService.Refund` | backend/src/delivery/delivery.service.ts:560-612 | The provider is asked once, for the item's price; `true` iff it acknowledged, and then the item is refunded with its refund row and a payout of just that price is on record; otherwise nothing changed. |
| `Service.DeliveryService.DeliverItem` | backend/src/delivery/delivery.service.ts:109-163 | One pass over a pending item: delivered with the code its book last showed, deferred iff the last answer was a refusal and until the slot it named, left open with exactly one open supplier, or given back for a justified reason at its price. |
| `Service.DeliveryService.HandleItem` | backend/src/delivery/delivery.service.ts:85-91 | Delivered and refunded items are untouched; pending and refunding ones are handled as above. |
| `Service.DeliveryService.Finish` | backend/src/delivery/delivery.service.ts:617-675 | The verdict on the items as one conditional update, which never misses with a single worker. |
| `Service.DeliveryService.RunPass` | backend/src/delivery/delivery.service.ts:82-101 | A crash-free pass handles every item once and ends final iff nothing is open, back in `paid` with the latest deferral iff some item only waits and none is unresolved (`OrderResults.WaitWasHeard`), `delivery_failed` iff one is; the order keeps its paid_at. The last thing heard about an item accounts for its result: a refusal for a deferral, the code shown for a delivery, the provider's answer about its price for a refund. However an item ends, only the last supplier asked for it may hold something new. Once it is settled, another supplier has an entry under an id not rejected only if a call under that id was lost, timed out or broke, or if that supplier's last word when the pass began was an `ok` never checked. A finished pass loses no call, one cut short at most one, and no id of its items becomes a stray. Cut short anywhere, it leaves every delivered and refunded item exactly as it was. |
| `Transcripts.TwoCodes` | backend/src/delivery/delivery.service.ts:304-306 | A run in which a fallback's `ok` is written down, the pass dies, and the next pass sells from the preferred supplier; both books hold an entry for the item. |
| `Transcripts.TwoCodesWithoutFailure` | backend/src/delivery/delivery.service.ts:374-381 | The same without a crash, a timeout, a broken connection or a sweep: the lookup after the fallback's `ok` finds no slot, the order waits its time out in the queue, and the next pass begins with the preferred supplier. Neither entry is lost or a stray. |
| `Leftovers.WhoHoldsASecond` | backend/src/delivery/delivery.service.ts:165-200 | The condition on the log behind that, from the invariant on the books and what the pass leaves: a supplier whose last word was an error is asked first, so only an unchecked `ok` is passed over. |
| `Leftovers.TidyAgain` | backend/src/delivery/delivery.service.ts:207-240 | What one stretch of a pass leaves under an id and what the next one leaves add up, through any number of rounds and suppliers. |
| `Bookings.EntryWasAskedFor` | backend/src/delivery/delivery.service.ts:448-477 | Everything booked or under way under an id of one of our items has an attempt under that id, a rejection of it, a call of this worker that was made and not written down, or is one of the strays. |
| `Lifetime.AloneItExplainsAll` | backend/src/delivery/delivery.service.ts:448-477 | A process that works alone from empty books, nobody else asking under its ids: every entry or request under way under an id of an item has an attempt in the log, a rejection, or a call of its own that a crash cut off. |
| `Bookings.HeldIsNoStray` | backend/src/delivery/delivery.service.ts:217-222 | An id of a held order's item never becomes a stray, as ids begin with their item. |
| `Service.DeliveryService.Rest` | backend/src/delivery/delivery.worker.ts:54-93 | Between orders the strays are exactly the entries under our ids that neither a log nor a lost call explains. |
| `Bookings.ServedIsExplained` | backend/src/delivery/delivery.service.ts:265-283 | Whatever a supplier does with a call, its shelf is explained once the answer is written down. |
| `Bookings.AttemptExplains` | backend/src/delivery/delivery.service.ts:448-477 | Writing an attempt keeps every entry under every id of the item explained. |
| `Bookings.RejectedIsFound` | backend/src/delivery/delivery.service.ts:479-509 | A rejected id is a discrepancy row of its item and supplier. |
| `Service.DeliveryService.Deliver` | backend/src/delivery/delivery.service.ts:82-101 | The pass result holds in the world its verdict was committed in; the verdict's event is a later commit, and a crash anywhere leaves everything valid and at most one call more lost. |
| `OrderResults.VerdictIsJudged` | backend/src/delivery/delivery.service.ts:617-675 | The branches of `finish` say exactly what the items' results say. |
| `OrderResults.WaitWasHeard` | backend/src/delivery/delivery.service.ts:82-101 | An order back in `paid` waits until a slot that, in this very pass, a supplier refused until as the last thing heard about one of its items; no other item's slot is later. |
| `OrderResults.FinalStatusMeans` | backend/src/delivery/delivery.service.ts:661-669 | `delivered` iff all items are delivered, `refunded` iff all are refunded, `partially_delivered` iff there are both. |
| `OrderResults.SumsOneMore` | backend/src/delivery/delivery.service.ts:92-98 | The running maximum of deferrals and the unresolved flag are those of all items so far. |
| `PassResults.EverybodyAsked` | backend/src/delivery/delivery.service.ts:144-151 | When the chain is through, every configured supplier has said a definite no, and the reason is the one its last words justify. |
| `PassResults.OpenIsReported` | backend/src/delivery/delivery.service.ts:85-98 | An item is open after a pass iff the pass reports it deferred or unresolved, never both. |
| `Outcomes.CallsAgainstSlots` | backend/src/delivery/supplier.client.ts:40-61 | Calls stay within the slots spent iff the limit is at least two or no book was looked up. |
| `Transcripts.UnpaidLookup` | backend/src/delivery/supplier.client.ts:40-61 | A run under a limit of one: one issue call and one lookup for a single slot. |
| `Evidence.OwnIsForeign` | backend/src/delivery/delivery.service.ts:78-81 | Everything a pass writes about its item is, to every other order, what other passes allow for. |
| `Interference.WebhookIsForeign` | backend/src/payments/payments.service.ts:93-97 | A webhook, even for the held order, leaves a held order alone. |
| `Interference.QueueMovesAreForeign` | backend/src/delivery/recovery.service.ts:62-82 | So do claims, requeues and retries of other orders. |
| `Interference.CreateIsForeign` | backend/src/orders/orders.service.ts:68-102 | So does creating an order. |
| `Interference.QuietIsTolerable` | backend/src/delivery/delivery.service.ts:78-81 | Doing nothing is one of the schedules a pass allows for. |
| `Lifetime.Begin` | backend/src/delivery/delivery.service.ts:69-76 | A process on an empty database starts out valid, with nothing lost and no strays. |
| `Interference.AuditIsForeign` | backend/src/delivery/supplier-audit.service.ts:173-194 | So do the audit's findings. |
| `Lifetime.Live` | backend/src/delivery/delivery.worker.ts:54-93 | Over a whole process life, with crashes anywhere and passes, sweeps, retries, webhooks and creations in any order: every supplier call was made with no other supplier open and under the id of the first round not rejected, the tables stayed consistent, the books hold nothing under our ids that log, rejections, a lost call or a stray does not explain, every lost call has a death of its own, and a process alone gets no strays. |
| `Lifetime.WorkOn` | backend/src/delivery/delivery.worker.ts:79-93 | The order claimed is the next one due, none iff none is, and a pass that is not cut short ends as `RunPass` says; whatever cuts it short, everything stays valid and at most one call more is lost. |
| `Worker.PickNext` | backend/src/delivery/delivery.worker.ts:98-110 | The earliest-paid due order, none iff none is due; due is `paid` with no `not_before` or one that has come, so deferred orders wait and keep their place. |
| `Worker.WakeSignal.Wake` | backend/src/delivery/delivery.worker.ts:46-58 | A wake-up starts a drain or folds into one more. |
| `Worker.WakeSignal.DrainEnds` | backend/src/delivery/delivery.worker.ts:59-68 | A folded wake-up gets its own drain; it is lost iff the drain threw or the worker is stopping. |
| `Limiter.SupplierLimiter.TryAcquire` | backend/src/delivery/supplier-limiter.service.ts:41-75 | Granted iff the window of the whole unswept history has room for `cost` stamps, or for `limit` if that is less, which are then all taken, at the present clock, or none; the swept table equals that window; a refusal names the moment the oldest stamp leaves, never in the past. |
| `Limiter.SupplierLimiter.NeverMoreThanTheLimit` | backend/src/delivery/supplier-limiter.service.ts:12-16 | No closed interval of windowMs + 100 ms ever holds more than `limit` stamps. |
| `Limiter.SupplierLimiter.ReadUsage` | backend/src/delivery/supplier-limiter.service.ts:78-101 | Without a lock and under any two clocks, the view shows the window of the whole history as of the later of the database's clock and the last acquisition, a slot iff one more would fit then, and otherwise when its oldest stamp leaves by the process's clock. |
| `Limiter.RefusedUntilThen` | backend/src/delivery/supplier-limiter.service.ts:68-73 | After a refusal nothing of that cost or more fits at any clock up to the time given, whatever others take. |
| `Limiter.AdmittedAfterTheNewest` | backend/src/delivery/supplier-limiter.service.ts:61-67 | Once the newest stamp has left the window any cost fits. |
| `Windows.SpacedIsBounded` | backend/src/delivery/supplier-limiter.service.ts:12-16 | Stamps spaced as the limiter spaces them never crowd a window. |
| `SupplierStub.WindowCounter.Admit` | backend/src/stubs/supplier/supplier-stub.service.ts:100-116 | The shifted array is exactly the arrivals in (now − w, now] of the whole history; admitted iff they are within the limit. |
| `SupplierStub.WindowCounter.PeakIsTheMaximum` | backend/src/stubs/supplier/supplier-stub.service.ts:110 | `peakInWindow` bounds every window of the history and is reached by one. |
| `SupplierStub.WindowCounter.NobodyTurnedAway` | backend/src/stubs/supplier/supplier-stub.service.ts:111-114 | With a positive limit `rejected` = 0 iff the peak is within the limit. |
| `SupplierStub.Stub.Reserve` | backend/src/stubs/supplier/supplier-stub.service.ts:207-239 | Idempotent per request id; otherwise the drawn duplicate or, without one, a free key; out of stock iff neither. |
| `SupplierStub.Stub.Issue` | backend/src/stubs/supplier/supplier-stub.service.ts:165-198 | The book is write-once; an answer quotes it unless a foreign code is drawn, and is an internal error iff drawn to be; `out of stock` hides a booked code iff the sku was declared unavailable after the request was booked. |
| `SupplierStub.Stub.HonestBookIsInjective` | backend/src/stubs/supplier/supplier-stub.service.ts:267-280 | Without a deliberate duplicate no code is booked for two requests. |
| `SupplierStub.OutOfStockButBooked` | backend/src/stubs/supplier/supplier-stub.service.ts:181-183 | A concrete run in which `out of stock` is answered for a booked request. |
| `StubAsSupplier.Call` | backend/src/stubs/supplier/supplier-stub.service.ts:165-198 | Every answer of the stub, in time or late, is one that part B allows a supplier, iff it is not `out of stock` about a booked request. |
| `Audit.SupplierAudit.RunAudit` | backend/src/delivery/supplier-audit.service.ts:57-171 | With passes going on at every await: every entry read is settled by what the audit read, or by a finding now there; every finding reported is a row it wrote for a reason read off the tables; entries all accounted for yield no finding. With nobody else at work a second audit finds and writes nothing. |
| `Findings.Judge` | backend/src/delivery/supplier-audit.service.ts:111-157 | Which of the three findings an unexplained entry is on deliveries, requests and explanations read apart, and that it is none only if a row about it was noted, it was delivered as booked, or its item is open. |
| `Findings.OneItemPerRequest` | backend/src/delivery/supplier-audit.service.ts:89-98 | A request id belongs to one item, in attempts and deliveries alike. |
| `Findings.JudgedIsUnaccounted` | backend/src/delivery/supplier-audit.service.ts:111-157 | Every finding is about an entry that nothing the audit read accounts for. |
| `Findings.UnusedIssueIsFalse` | backend/src/delivery/supplier-audit.service.ts:142-155 | `unused_issue` is false, then and for ever after, iff the item was delivered under that very id between the read of the deliveries and the read of the requests. |
| `Findings.UnknownRequestIsFalse` | backend/src/delivery/supplier-audit.service.ts:130-140 | `unknown_request` is false iff a call under the id was made and not yet written down when the requests were read. |
| `Findings.MismatchStands` | backend/src/delivery/supplier-audit.service.ts:116-128 | A `code_mismatch` is never taken back. |
| `Races.ADeliveryTakenForUnused` | backend/src/delivery/supplier-audit.service.ts:81-98 | A run in which a delivery commits between the two reads and is reported as `unused_issue`. |
| `Races.ARequestTakenForUnknown` | backend/src/delivery/delivery.service.ts:268-283 | A run in which the audit reads while an answer is on its way and reports the request as unknown. |
| `Storefront.ReadPage` | backend/src/catalog/catalog.service.ts:17-24 | A page plus what follows its cursor is everything listed after the previous cursor; no cursor iff it was the last. |
| `Storefront.ReadAll` | backend/src/catalog/catalog.service.ts:17-69 | Following the cursor ends and shows every listed product once, in order, in pages of full size but the last. |
| `Storefront.AfterMembers` | backend/src/catalog/catalog.service.ts:35-69 | Exactly the active products in stock of the type, beyond the cursor. |

## Left out

- Machine: SKIP LOCKED and the claim order are over-approximated, any due order may be claimed; the order itself is `Worker.PickNext`.
- Machine: the supplier dialogue is reduced to "a code the book confirms"; the dialogue itself is part B.
- Service.DeliveryService.Issue: an entry that lands after an `out_of_stock` answer, from a request that timed out before it, is not excluded; the contract says when that can be.
- Service.DeliveryService.Deliver: what other workers do to the order between the verdict and its event is arbitrary, so the contract speaks about the world of the verdict's own commit.
- Limiter: the client's slots in part B are granted by the draws instead of by this limiter, and the claim that a supplier never sees more than its limit is not made, because prepaid lookups can arrive long after their slot.
- Audit: statements are given beforehand, and entries of suppliers that were not reached are not looked at; what the audit's own calls cost in slots is not counted.
- Storefront: skus are compared by their place in the database's sort order; stock changes between pages are not modelled.
- Stock counter (`decrementStock`, `setStock`) and the catalog generator: nothing that anything proved here depends on.
- Machine: that a pass of part B is a schedule of part A is not proved; both use the same transaction functions.
- Checkout: request validation (quantities of 1 to 10, at most 20 lines) is taken as given, as far as quantities being positive.
- The preferred supplier of a product is an arbitrary name at each pass.
- The items' and ledger's own currency column: it repeats the order's.
- The order of keys as UUIDs: orders are numbered by creation and items by position.
- Latency, detail and resolution texts, logging, HTTP, JSON, timers, back-off sleeps and error-string parsing: only the result classes are kept.
- NestJS modules, controllers, DTO validation, progress view, health check, seeding, `explain` and the scripts.
- Eventual delivery: nothing is claimed about progress under arbitrary suppliers.
