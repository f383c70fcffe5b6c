# Field-service platform: verified model

A Dafny model of the Django backend's hardest behaviour and proofs about it. `dafny verify dfyconfig.toml`
checks everything.

**Money and stock.** Orders, payments, quotes and products form one database (`Ledger`). Each `@transaction.atomic`
service method is a function from the database to the state it commits or the error it rolls back with, and a
method of `LedgerService.CommerceStore` that updates the tables in place and is proved equal to it; stock depletion
is a nested savepoint. Runs are arbitrary sequences of service calls, expiry jobs and webhooks, failing ones
included. `LedgerStructure` keeps the structural invariant, `LedgerEffects` says on the rows when each call commits
and what it writes, `PaymentBook` accounts for the charges and refunds of a payment, `QuoteBook`, `Settlement` and
`SettlementRuns` the money of quotes, `CreditRace`, `PaymentRace` and `QuoteRace` charges, openings and reviews of
quotes whose transactions overlap, `OrderBook` the funding of orders and at-least-once delivery, `StockBook` the
whereabouts of every unit of stock, and `LedgerRuns` sums up what a disciplined deployment gets. Money is integer
kobo; a two-decimal column keeps whole kobo, and whether half a kobo goes up or down is a parameter.

**Calendar.** `Calendar` models bookings, blackouts, reschedule and no-show records and the audit entries about
bookings, with the table constraints as the database evaluates them (a null bound reaches to infinity).
`CalendarService.BookingDesk` is the in-place form, `CalendarSafety` the exclusion of double commitments in serial
runs, `CalendarCalls` when each call commits and what it writes, `CalendarHistory` lifecycle and record chains,
`CalendarAudit` what the audit log can rebuild, `CalendarRaces` and `CalendarMutex` the same services when checks
and writes interleave. The log copies the text by which a booking's request and technician describe themselves at
that moment; those texts are inputs. `Availability` is the interval subtraction and `Slots` the day view built on
it. Instants are whole microseconds; the time zone is UTC, as configured.

**Notifications, sessions, audit.** `Delivery` is the retry machine of one notification delivery under every
interleaving of tasks, crashes and sweeps (`DeliveryService` runs it over a table, `DeliveryEnds` says where
deliveries end and why), `Sessions` and `SessionService` the refresh-token rotation, which is *not* transactional,
`SessionEnds` what opens and ends sessions for good, `SessionRace` refreshes and sign-ins that overlap,
`AuditTrail` the field deltas and `Retention` the batched archive and purge loops.

## Where the code does less than it seems to

- Escalating a paid payment reopens it, and a late success for a failed payment is still credited: both push a
  quote past its amount (`Settlement.EscalatedPaymentCreditedTwice`, `Settlement.LateSuccessOvershoots`). The
  books stay balanced exactly in the steps that `QuoteBook.StepBalancedExactly` names.
- A webhook saves the quote as it read it, without a lock: a credit committed in between is lost
  (`CreditRace.SecondSaveWins`, `CreditRace.ReachableCreditLost`), and only then (`CreditRace.StaleCreditExact`).
- Opening a quote payment saves the pending row as it read it, without a lock: a cancellation committed in between
  is overwritten (`PaymentRace.CancellationOverwritten`), and nothing else but escalation reopens a cancelled one
  (`PaymentRace.StaysCancelledExactly`).
- A quote review saves the quote as it read it as well, so it can wipe out a credit (`QuoteRace.ReviewLosesCredit`).
  `QuoteRace.StepBalancedExactly` lists all steps of an overlap that unbalance a quote's books.
- Two overlapping refreshes of one token both succeed (`SessionRace.OneTokenTwice`, `SessionRace.BothSucceed`), and
  only then is a token used twice (`SessionRace.StaleRefreshExact`).
- Opening a session queries the active ones before it inserts its own, without a lock: two sign-ins or refreshes that
  overlap leave two active sessions of one device class (`SessionRace.TwoActiveOfOneClass`), and nothing else does
  (`SessionRace.StepOnePerClassExactly`).
- A payment whose stock depletion was refused is still restocked on refund, if the refund commits at all
  (`StockBook.PayThenRefundExact`). `create_order` checks each line alone, so a repeated product can be accepted
  that can never be supplied (`StockBook.AcceptedButNotSuppliable`).
- A quote payment can never be refunded (`QuoteBook.QuotePaymentNotRefundable`).
- One kobo paid by halves that round down never settles (`Settlement.SettledExactly`).
- The low-stock alert passes an argument that `log_action` does not take
  (`backend/apps/products/services/inventory_service.py:150`), so it raises. `alertRaises` says whether it does;
  every ledger result holds for both values. While it raises, the charge of an order that brings a product to its
  threshold rolls back every time (`OrderBook.ChargeCommitsExactly`).
- `sync_completion` checks no status, so a cancelled or no-show booking becomes completed when it is called
  (`CalendarHistory.CancelledThenCompleted`), and nothing else ever changes the row of an ended booking
  (`CalendarHistory.EndedRunExact`).
- The audit log stores the request and the technician of a booking as text. Once either describes itself
  differently, replaying the log no longer gives the row it would show (`CalendarAudit.RequestAdvances`,
  `CalendarAudit.ReplayExact`).
- No constraint spans bookings and blackouts: interleaved calls can put both on one day
  (`CalendarRaces.BlackoutRaceOverlaps`). Two unfinished calls do so exactly when their windows overlap
  (`CalendarMutex.FinishBothExact`).
- The day view drops the dates of windows, so the whole-day windows that scheduling creates are invisible in it
  (`Slots.BookingsInvisible`); `Slots.WindowExact` says which windows it shows rightly.
- A sent e-mail whose audit entry cannot be written is sent again (`Delivery.LostAuditSendsTwice`). A sweep that
  writes back a delivery claimed since its read can repeat an attempt number (`Delivery.OverlapRepeatsAttempt`) and
  send a sent notification again (`Delivery.OverlapSendsAgain`). Two tasks that find a delivery pending before either
  claims it both send it (`Delivery.OverlapSendsTwice`). No other overlap of tasks and sweeps does harm
  (`Delivery.StepSoundExactly`).
- The archive UPDATE is refused by PostgreSQL's trigger, and then nothing is purged either
  (`Retention.ForbiddenUpdateBlocksPurge`).

## Model

| member | source | states |
|---|---|---|
| Inventory.ReduceExact | backend/apps/products/services/inventory_service.py:14-34 | the depletion loop, repeated products allowed, succeeds if and only if every product exists and its whole requested total fits its stock (and stays clear of a failing alert); then each stock drops by exactly its total |
| Inventory.ReduceOrderIrrelevant | backend/apps/products/services/inventory_service.py:23-34 | permuting the lines changes neither success nor the resulting stock |
| Inventory.RestockExact | backend/apps/orders/services/order_service.py:220-228 | a committed restock adds exactly the per-product totals |
| Inventory.RestockCommitsExactly | backend/apps/orders/services/order_service.py:220-228 | a restock commits if and only if every product exists and each line lifts its product clear of a failing alert |
| Inventory.RestockUndoesReduce | backend/apps/orders/services/order_service.py:220-228 | what a committed depletion took can always be put back, whether the alert fails or not, and that gives back the very same product table |
| Inventory.ReduceCrashesExactly | backend/apps/products/services/inventory_service.py:14-65 | a depletion crashes if and only if the alert fails and some line that fits, with all before it, leaves its product at the threshold or below |
| LedgerService.CommerceStore.ReduceInventory | backend/apps/products/services/inventory_service.py:14-34 | the in-place loop commits the specified table, or restores the savepoint and reports the first line's error |
| LedgerService.CommerceStore.AdjustInventory | backend/apps/products/services/inventory_service.py:69-83 | in-place adjustment against its specification, rolling back when the alert raises |
| Ledger.PriceLinesExact | backend/apps/orders/services/order_service.py:36-60 | order lines are accepted if and only if each, on its own, names an unarchived product, asks a positive quantity and fits the stock |
| LedgerService.CommerceStore.CreateOrder | backend/apps/orders/services/order_service.py:17-67 | the accumulating loop makes one order per request whose total is the sum of its line totals, or changes nothing |
| LedgerService.CommerceStore.RequirePayment | backend/apps/orders/services/order_service.py:137-143 | resets the order to pending payment whatever its status |
| LedgerService.CommerceStore.ProcessPaymentPaid | backend/apps/orders/services/order_service.py:159-195 | marks paid and depletes; a refused depletion leaves the order paid and stock untouched; an alert failure rolls back both |
| LedgerService.CommerceStore.CancelOrder | backend/apps/orders/services/order_service.py:206-228 | cancellation restocks line by line only when the order was paid, all or nothing |
| LedgerService.CommerceStore.FulfillOrder | backend/apps/orders/services/order_service.py:264-280 | only a paid order is fulfilled; a repeated call changes nothing |
| LedgerService.CommerceStore.InitializePayment | backend/apps/payments/services/payment_service.py:17-130 | payment upsert, order reset and provider call commit together or not at all |
| QuoteBook.PlanFits | backend/apps/payments/services/payment_service.py:140-156 | what a plan asks for, however half a kobo is stored, never takes the credited total past the quote amount; the full plan and the balance reach it exactly, the first half is half of it to the kobo |
| LedgerService.CommerceStore.SaveQuotePayment | backend/apps/payments/services/payment_service.py:158-180 | reuses the quote's pending payment or makes one, under the unique reference |
| LedgerService.CommerceStore.InitializeQuotePayment | backend/apps/payments/services/payment_service.py:134-218 | plan, payment and provider call commit together or not at all |
| LedgerService.CommerceStore.ExpirePayments | backend/apps/payments/services/payment_service.py:222-254 | the loop cancels exactly the pending and failed payments of a day ago or more |
| LedgerService.CommerceStore.RefundPayment | backend/apps/payments/services/payment_service.py:307-366 | the transaction that `LedgerEffects.RefundExact` pins down: payment refunded and order cancelled together, or nothing |
| LedgerService.CommerceStore.CancelPayment | backend/apps/payments/services/payment_service.py:271-279 | the service itself overrides any status |
| LedgerService.CommerceStore.EscalatePayment | backend/apps/payments/services/payment_service.py:370-380 | the service itself overrides any status |
| LedgerService.CommerceStore.ProcessWebhook | backend/apps/payments/services/webhook_service.py:80-164 | guard, failure, order and quote branches against the transaction that `LedgerEffects.FailureWrites`, `WebhookIgnores` and `ChargeWrites` pin down |
| LedgerStructure.StepKeepsWellFormed | backend/apps/payments/models/payment.py:20-45 | every call keeps references unique, one payment per order at the order's total, one pending payment per quote, item totals, one order per request and non-negative stock |
| LedgerStructure.RunKeepsWellFormed | backend/apps/payments/services/payment_service.py:158-180 | that structural invariant holds after any run that starts from it |
| LedgerStructure.OrderTotalForever | backend/apps/orders/services/order_service.py:36-67 | an order made from lines is priced from the catalogue of that moment, and its total is the sum of its item snapshots after any later run |
| LedgerStructure.TermsFrozen | backend/apps/orders/models/order.py:44-49 | request, total and items of an order never change, in any run |
| LedgerEffects.FailureWrites | backend/apps/payments/services/webhook_service.py:161-163 | a failed charge of a payment that is neither paid nor cancelled, for an order as for a quote, rewrites that row to failed and nothing else; an unhandled event writes nothing |
| LedgerEffects.WebhookIgnores | backend/apps/payments/services/webhook_service.py:80-85 | no event changes anything once the referenced payment is paid or cancelled, and one for an unknown reference is refused |
| LedgerEffects.ChargeWrites | backend/apps/payments/services/webhook_service.py:87-151 | a committed success rewrites the payment to paid, its order to paid with its covered lines off the shelf, or adds its amount to its quote, and nothing else |
| LedgerEffects.OrderOpeningCommits | backend/apps/payments/services/payment_service.py:17-130 | an order payment opens if and only if the order exists, only its own payment may have the reference, and the provider answers |
| LedgerEffects.OrderOpeningWrites | backend/apps/payments/services/payment_service.py:20-38 | then its one payment is pending under the new reference, a new one at the total, and the order awaits payment |
| LedgerEffects.QuoteOpeningCommits | backend/apps/payments/services/payment_service.py:134-218 | a quote payment opens if and only if the quote owes something, the plan is known, a due second half is allowed, only its own pending payment may have the reference, and the provider answers |
| LedgerEffects.QuoteOpeningWrites | backend/apps/payments/services/payment_service.py:140-180 | then the plan is stored and its one pending payment asks for the rest or the half, whichever is due |
| LedgerEffects.ExpiryWrites | backend/apps/payments/services/payment_service.py:222-231 | expiry rewrites exactly the pending and failed payments made twenty-four hours ago or earlier to cancelled |
| LedgerEffects.OverrideWrites | backend/apps/payments/services/payment_service.py:271-279 | cancelling and escalating rewrite the status of any payment there is, and nothing else |
| LedgerEffects.CancelRequestExact | backend/apps/payments/permissions.py:37-44 | the payment API lets a cancellation through if and only if the payment exists and is not paid |
| LedgerEffects.CancelOrderExact | backend/apps/orders/services/order_service.py:206-228 | an order is cancelled if and only if it exists and, if paid, a refund is the reason and its lines can go back; then it is cancelled, with those lines back on the shelf |
| LedgerEffects.RefundExact | backend/apps/payments/services/payment_service.py:307-366 | a refund commits if and only if the payment is a paid one of an order that can be cancelled; then the payment reads refunded, the order cancelled, and no second refund commits |
| LedgerEffects.FulfilmentExact | backend/apps/orders/services/order_service.py:264-280 | fulfilment commits if and only if the order is paid or fulfilled already |
| LedgerEffects.OrderCreationExact | backend/apps/orders/services/order_service.py:17-67 | an order is made if and only if its request has none and every line can be had on its own at a total that is not negative; its total is what the lines cost at catalogue prices |
| LedgerEffects.QuoteOrderExact | backend/apps/orders/services/order_service.py:98-107 | a request that has an order keeps it; otherwise one awaiting payment at the quote amount is made unless that is negative |
| LedgerEffects.AdjustmentExact | backend/apps/products/services/inventory_service.py:69-83 | an adjustment commits if and only if the level stays non-negative and clear of a failing alert |
| LedgerEffects.CatalogueWrites | backend/apps/products/services/inventory_service.py:120-142 | the other catalogue calls never touch the stock of a product that exists, and refuse negative thresholds and levels |
| LedgerEffects.QuoteWrites | backend/apps/requests/services/quote_service.py:82-92 | a quote is issued with nothing credited, and no review touches its amounts |
| PaymentBook.ChargesAccounted | backend/apps/payments/services/webhook_service.py:80-90 | over any run the charges of a payment are exactly those refunded, those overridden by cancellation, escalation or a new opening, and the one it may still have |
| PaymentBook.RefundedAtMostCharged | backend/apps/payments/services/payment_service.py:307-317 | from the empty ledger a payment is refunded at most as often as a successful charge reached it |
| QuoteBook.StepBalancedExactly | backend/apps/payments/services/webhook_service.py:84-90 | from balanced books a committed step leaves them balanced if and only if it is safe: overrides spare paid quote payments, successes reach a pending payment or one that still fits |
| QuoteBook.RunBalanced | backend/apps/payments/services/webhook_service.py:143-151 | over any run of safe steps the credited amount is the sum of paid payments and credited plus pending never exceeds the quote amount |
| QuoteBook.InitializeQuoteBalanced | backend/apps/payments/services/payment_service.py:140-180 | initialisation leaves exactly one pending payment of the due amount beside what was credited |
| QuoteBook.CreditedStatus | backend/apps/payments/services/webhook_service.py:143-151 | after a credit the quote reads paid exactly when its amount is reached, partially paid otherwise |
| QuoteBook.GuardedCancelSafe | backend/apps/payments/permissions.py:37-44 | a cancellation the payment API admits is a safe step |
| QuoteBook.QuotePaymentNotRefundable | backend/apps/payments/services/payment_service.py:307-366 | refunding a quote payment always rolls back |
| Settlement.RoundCredits | backend/apps/payments/services/webhook_service.py:143-151 | one initialised and once credited fifty-fifty payment moves the credited amount by exactly the stored half or balance |
| Settlement.SettledExactly | backend/apps/payments/services/payment_service.py:141-156 | in rounds of initialising and crediting, a quote is fully paid after n fifty-fifty payments if and only if n reaches two (half kobo rounding up) or three (rounding down, two kobo and more), never overshooting |
| SettlementRuns.SettledInRuns | backend/apps/payments/services/payment_service.py:141-156 | the same over any ledger run whose openings for the quote are fifty-fifty with one rounding and whose successes reach its payments pending or settled: the credited amount is what the number of credits comes to, and reaches the quote exactly at that bound |
| SettlementRuns.StepOnCourse | backend/apps/payments/services/webhook_service.py:143-151 | in such runs the pending payment is always the one that takes the quote to its next credited total |
| Settlement.EscalatedPaymentCreditedTwice | backend/apps/payments/services/payment_service.py:370-380 | from the empty ledger, a run with balanced books in which an escalated payment of a quote of 100 is credited twice, to 200 |
| Settlement.LateSuccessOvershoots | backend/apps/payments/services/webhook_service.py:84-90 | from the empty ledger, a run with balanced books in which a failed payment is credited beside its replacement, to 200 of 100 |
| CreditRace.StepTalliedExactly | backend/apps/payments/services/webhook_service.py:143-151 | with charges overlapping, a step leaves every quote credited exactly its paid payments if and only if no save goes over a credit committed since its read |
| CreditRace.StaleCreditExact | backend/apps/payments/services/webhook_service.py:143-151 | a charge reads its quote, other charges read and commit, the charge saves: the tallies stay exact if and only if what was credited to that quote in between adds up to nothing |
| CreditRace.UndisturbedCharge | backend/apps/payments/services/webhook_service.py:80-151 | a charge that reads and saves undisturbed is the ledger's webhook |
| CreditRace.RunTallied | backend/apps/payments/services/webhook_service.py:143-151 | no credit is lost in any overlap of charges in which every save finds the amount it has read |
| CreditRace.QuoteLockSuffices | backend/apps/payments/services/webhook_service.py:80-151 | if no two charges of one quote are unfinished together, every save is of that kind |
| CreditRace.LockedRunTallied | backend/apps/payments/services/webhook_service.py:80-151 | every run that starts no charge of a quote while another of it is unfinished keeps all tallies exact |
| CreditRace.SecondSaveWins | backend/apps/payments/services/webhook_service.py:145-151 | two charges of one quote that both read before either saves lose the first amount, unless it is zero |
| CreditRace.ReachableCreditLost | backend/apps/payments/services/webhook_service.py:145-151 | from the empty ledger, a run after which two overlapping charges pay 200 and the quote is credited 100 |
| CreditRace.OneAfterTheOther | backend/apps/payments/services/webhook_service.py:145-151 | the same charges one after the other lose nothing |
| PaymentRace.StaysCancelledExactly | backend/apps/payments/services/payment_service.py:161-167 | a step leaves a cancelled quote payment cancelled if and only if it neither escalates it nor saves an opening that read it while it was pending |
| PaymentRace.CancelledForever | backend/apps/payments/services/payment_service.py:161-167 | cancelled while no opening that has read it is unfinished, a payment stays cancelled in every run that does not escalate it, however openings and other calls interleave |
| PaymentRace.CancellationOverwritten | backend/apps/payments/services/payment_service.py:161-167 | from the empty ledger, a run in which a cancellation is overwritten and the payment is pending again |
| PaymentRace.UndisturbedOpening | backend/apps/payments/services/payment_service.py:134-218 | an opening that reads and saves undisturbed is the ledger's own transaction |
| PaymentRace.LockedQuoteKept | backend/apps/payments/services/payment_service.py:137-161 | while an opening is unfinished no step moves its quote's amounts, so a success for that quote waits |
| QuoteRace.StepBalancedExactly | backend/apps/payments/services/webhook_service.py:80-151 | with openings, charges, quote reviews and all other calls overlapping under their locks, a step leaves balanced books balanced if and only if it is no override of a paid quote payment, no charge that commits over another credit or past the amount, and no review that saves over a credit; openings always do |
| QuoteRace.RaceBalanced | backend/apps/payments/services/payment_service.py:134-218 | in every overlap the ledger's structure and the locks hold, and books stay balanced while every step keeps them |
| QuoteRace.DisciplinedRacesBalance | backend/apps/payments/services/webhook_service.py:80-151 | from the empty ledger, every overlap without escalation, with guarded cancellation, charges of pending payments, and no two unfinished charges, nor a charge and a review, of one quote: one pending payment per quote, credited amounts exact and within bounds |
| QuoteRace.StaleChargeExact | backend/apps/payments/services/webhook_service.py:143-151 | a charge of a pending payment reads its quote, anything that keeps the books runs, the charge commits: the books balance if and only if the quote's credited amount is back at what it was |
| QuoteRace.SaveOpeningBalanced | backend/apps/payments/services/payment_service.py:161-180 | an opening keeps the books when it saves, whatever cancellation, expiry or failure has done to the payment it read |
| QuoteRace.ReviewLosesCredit | backend/apps/requests/services/quote_service.py:179-214 | from the empty ledger, a run in which a paid quote's credit is wiped out by the save of its approval |
| QuoteRace.UndisturbedOpening | backend/apps/payments/services/payment_service.py:134-218 | an opening of this machine that runs undisturbed is the ledger's own transaction |
| QuoteRace.UndisturbedCharge | backend/apps/payments/services/webhook_service.py:80-151 | so is a charge |
| QuoteRace.UndisturbedReview | backend/apps/requests/services/quote_service.py:179-214 | so is the review of a quote |
| OrderBook.StepFundedExactly | backend/apps/payments/services/payment_service.py:271-279 | a committed step keeps every paid or fulfilled order funded if and only if it overrides no paid payment of such an order |
| OrderBook.RunFunded | backend/apps/payments/services/webhook_service.py:87-141 | over any run of such steps a paid or fulfilled order has a paid payment of exactly its total |
| OrderBook.SettledIsFixed | backend/apps/payments/services/webhook_service.py:84-85 | no sequence of webhooks, repeated and reordered at will, changes a paid or cancelled payment |
| OrderBook.DuplicateDelivery | backend/apps/payments/services/webhook_service.py:80-85 | once a charge is processed, any further event for its reference changes nothing at all |
| OrderBook.ChargeCommitsExactly | backend/apps/orders/services/order_service.py:159-204 | a successful charge for an open payment commits if and only if it is for a quote, or its order is payable and its lines do not set off a failing alert |
| OrderBook.MarkedAtMostInitialised | backend/apps/orders/services/order_service.py:159-169 | over any run an order is marked paid at most as often as its payment was initialised, plus one if it could be paid at the start |
| OrderBook.MarksBoundedByInitialisations | backend/apps/payments/services/webhook_service.py:135-141 | from the empty ledger, an order is marked paid at most as often as its payment was initialised |
| LedgerRuns.DisciplinedRunsBalance | backend/apps/payments/services/webhook_service.py:84-151 | in runs without escalation, with guarded cancellation and successes only for pending or settled payments: one pending payment per quote, credited amounts exact and within bounds, honoured orders funded, stock non-negative |
| StockBook.StepAccounted | backend/apps/orders/services/order_service.py:179-228 | per step and product: stock plus held plus shipped plus dropped equals the same before plus adjustments plus goods missing from a shortfall |
| StockBook.RunAccounted | backend/apps/orders/services/order_service.py:179-228 | that balance, summed over the steps, holds over any run at all |
| StockBook.StockConserved | backend/apps/products/services/inventory_service.py:14-34 | without shortfalls and re-initialised honoured orders, stock plus what orders took moves only by adjustment |
| StockBook.PayThenRefundExact | backend/apps/orders/services/order_service.py:182-228 | if the shelf covers the order, paying and refunding commits and restores every product; if not, the refund commits exactly when the lines can go on the shelf clear of a failing alert, and then adds goods that never left it |
| StockBook.AcceptedButNotSuppliable | backend/apps/orders/services/order_service.py:40-49 | a basket that order creation accepts and no depletion can supply |
| AuditTrail.LogTransition | backend/apps/audit_logs/services/audit_service.py:206-216 | the loop over the new fields, in any order, computes the changed fields with their old and new values |
| AuditTrail.ForwardExact | backend/apps/audit_logs/services/audit_service.py:206-216 | a delta applied to the old fields gives the new ones if and only if no field vanished and none appeared as null |
| AuditTrail.InverseExact | backend/apps/audit_logs/services/audit_service.py:206-216 | the inverse delta gives the old fields back if and only if both have the same fields |
| AuditTrail.SameFieldsRoundTrip | backend/apps/audit_logs/services/audit_service.py:178-188 | both directions hold between two versions of one model row |
| CalendarService.BookingDesk.Save | backend/apps/audit_logs/services/audit_service.py:206-230 | saves a row if the constraints let it and logs the field delta, else leaves the calendar alone |
| CalendarService.BookingDesk.CreateUnscheduled | backend/apps/bookings/services/booking_service.py:25-59 | one unscheduled booking per request, with its creation entry |
| CalendarService.BookingDesk.Schedule | backend/apps/bookings/services/scheduling_service.py:29-68 | checks, window and write against the transaction |
| CalendarService.BookingDesk.Reschedule | backend/apps/bookings/services/scheduling_service.py:91-154 | checks, limit, record and write, all or nothing |
| CalendarService.BookingDesk.StartWork | backend/apps/bookings/services/booking_service.py:86-118 | only a scheduled booking starts |
| CalendarService.BookingDesk.ExtendDuration | backend/apps/bookings/services/booking_service.py:147-192 | only a longer duration whose window is free |
| CalendarService.BookingDesk.ReportNoShow | backend/apps/bookings/services/no_show_service.py:23-59 | grace period, single record and status, all or nothing |
| CalendarService.BookingDesk.SyncCompletion | backend/apps/bookings/services/booking_service.py:208-230 | completes from any status |
| CalendarService.BookingDesk.SyncCancellation | backend/apps/bookings/services/booking_service.py:257-285 | ended bookings are left alone |
| CalendarService.BookingDesk.CreateBlackout | backend/apps/bookings/services/availability_service.py:216-250 | refuses empty ranges and ranges that meet an active booking |
| CalendarService.BookingDesk.DeleteBlackout | backend/apps/bookings/services/availability_service.py:272-290 | removes exactly the named blackout |
| CalendarSafety.SafeIsExclusive | backend/apps/bookings/models/booking.py:92-114 | constraints plus whole-day placement mean pairwise disjoint half-open windows of max(1, duration) days, clear of blackouts |
| CalendarSafety.QueryIsConstraint | backend/apps/bookings/services/availability_service.py:166-182 | against other bookings, the conflict query refuses a whole-day row if and only if the exclusion constraint would |
| CalendarSafety.ServiceCheckRefinesConstraint | backend/apps/bookings/services/scheduling_service.py:44-53 | in a safe calendar a schedule, reschedule or extension is committed if and only if its service check passes: the database constraints never fire |
| CalendarSafety.StepSafe | backend/apps/bookings/services/booking_service.py:160-179 | every booking and blackout call keeps the calendar safe |
| CalendarSafety.RunSafe | backend/apps/bookings/services/availability_service.py:166-246 | after any serial run, failing calls included, active bookings of a technician are disjoint whole-day windows clear of the technician's blackouts |
| CalendarCalls.ScheduleExact | backend/apps/bookings/services/scheduling_service.py:29-68 | in a safe calendar scheduling commits if and only if the booking is unscheduled and its max(1, duration) days from the start meet no other booking on duty and no blackout of the technician; then that window is written |
| CalendarCalls.RescheduleExact | backend/apps/bookings/services/scheduling_service.py:91-154 | rescheduling commits if and only if the booking is scheduled, was moved fewer than three times, and the new window is clear of all else; then it is moved, counted and recorded from where to where |
| CalendarCalls.ExtendExact | backend/apps/bookings/services/booking_service.py:147-192 | an extension commits if and only if the booking is on duty, the duration grows and the longer window is clear of all else |
| CalendarCalls.StartExact | backend/apps/bookings/services/booking_service.py:86-118 | in a safe calendar a start commits if and only if the booking is scheduled: no constraint refuses it |
| CalendarCalls.ReportNoShowExact | backend/apps/bookings/services/no_show_service.py:23-59 | a no-show commits if and only if the booking is on duty, began two hours ago or earlier, and has no record; then it has one |
| CalendarCalls.CompleteExact | backend/apps/bookings/services/booking_service.py:208-230 | completion commits for every booking there is, whatever its status: no constraint refuses it |
| CalendarCalls.CancelExact | backend/apps/bookings/services/booking_service.py:257-285 | cancellation commits for every booking there is and leaves exactly the ended ones as they are |
| CalendarCalls.CreateExact | backend/apps/bookings/services/booking_service.py:25-59 | a booking is made, unscheduled, if and only if its request has none and its duration is not negative |
| CalendarCalls.CreateBlackoutExact | backend/apps/bookings/services/availability_service.py:216-250 | a blackout is made if and only if it is not empty, meets no booking on duty of the technician and is new |
| CalendarCalls.DeleteBlackoutExact | backend/apps/bookings/services/availability_service.py:272-290 | deletion commits if and only if the blackout exists and removes no other |
| CalendarCalls.DescriptionsWrite | backend/apps/requests/models/request.py:101-102 | a changed description changes no booking and no log entry |
| CalendarHistory.StepMoves | backend/apps/bookings/services/booking_service.py:208-271 | the only status changes and row changes any call makes |
| CalendarHistory.EndedForever | backend/apps/bookings/services/booking_service.py:213-219 | an ended booking never becomes active again in any run; only its status can move, and only to completed |
| CalendarHistory.EndedRowExact | backend/apps/bookings/services/booking_service.py:208-219 | in a safe calendar a call changes the row of an ended booking if and only if it completes one that is not completed |
| CalendarHistory.EndedRunExact | backend/apps/bookings/services/booking_service.py:208-219 | over any run an ended booking keeps its row, except that it is completed if and only if some call completes it |
| CalendarHistory.CancelledThenCompleted | backend/apps/bookings/services/booking_service.py:208-219 | a run from the empty calendar in which a cancelled booking becomes completed |
| CalendarHistory.RunTold | backend/apps/bookings/services/scheduling_service.py:99-140 | after any run the reschedule counter is the number of records, at most three; each record starts where the one before ended up, the last one at the current start, extensions in between included |
| CalendarHistory.RunAbsences | backend/apps/bookings/services/no_show_service.py:35-59 | after any run a no-show booking has exactly one record, declared two hours or more after its start, and a record means no-show or completed |
| CalendarAudit.RunAudited | backend/apps/audit_logs/services/audit_service.py:190-230 | after any run, replaying a booking's log entries from its creation rebuilds every column of its own |
| CalendarAudit.EntryExact | backend/apps/audit_logs/services/audit_service.py:206-230 | every call that changes a booking adds one entry about it, with exactly the columns that changed, their values before and after, and neither borrowed text |
| CalendarAudit.ReplayExact | backend/apps/audit_logs/services/audit_service.py:178-230 | whatever runs after a booking is created, replay gives the row as the log would show it now if and only if its request and technician describe themselves as they did at its creation |
| CalendarAudit.RequestAdvances | backend/apps/requests/models/request.py:101-102 | a run after which it does not, because the request describes itself anew |
| CalendarAudit.RunRewinds | backend/apps/audit_logs/services/audit_service.py:206-219 | taking a run's entries back off the row shown at its end gives the row from before it under the texts of the end; it is the row shown then if and only if those texts are the same |
| CalendarAudit.RetainedSuffix | backend/apps/audit_logs/services/retention_service.py:48-52 | entries kept after older ones are purged still take the row back to the cut and bring the row at the cut forward, but replayed alone never rebuild a booking made before it |
| CalendarAudit.LogDeterminesBookings | backend/apps/audit_logs/services/audit_service.py:190-230 | two runs that wrote the same log left the same booking rows, up to which request and technician the logged texts belong to |
| CalendarRaces.RaceConsistent | backend/apps/bookings/models/booking.py:105-114 | under any interleaving of checks and writes, bookings stay disjoint and chains, no-show records and audit log stay exact |
| CalendarRaces.UndisturbedCall | backend/apps/bookings/services/scheduling_service.py:29-68 | a call that checks and writes undisturbed is the calendar's own transaction, and so is every other call |
| CalendarRaces.BlackoutRaceOverlaps | backend/apps/bookings/services/availability_service.py:229-246 | an interleaving in which a booking and a blackout of one technician both commit on the same day |
| CalendarMutex.FinishBothExact | backend/apps/bookings/services/availability_service.py:229-246 | a checked booking row and a checked blackout are both written, in either order: the calendar is safe afterwards if and only if they are of different technicians or their windows do not overlap |
| CalendarMutex.CheckedTogetherUnsafe | backend/apps/bookings/services/availability_service.py:229-246 | from the empty calendar, a run after which both calls have passed their checks in a safe calendar, and either order of writing leaves it unsafe |
| CalendarMutex.SeparateRaceSafe | backend/apps/bookings/models/blackout_date.py:35-37 | if no call begins whose window overlaps one that an unfinished call of the other kind will write for the same technician, every interleaving is as safe as a serial run |
| Availability.SubtractRange | backend/apps/bookings/services/availability_service.py:196-212 | the loop computes the block-by-block specification |
| Availability.SubtractCovers | backend/apps/bookings/services/availability_service.py:196-212 | the result covers exactly the instants covered before minus the range, for any blocks and any range, inverted ones too |
| Availability.SubtractOrderedExact | backend/apps/bookings/services/availability_service.py:196-212 | nonempty sorted disjoint blocks stay so if and only if the range is not inverted or meets no block |
| Availability.SubtractGrowsByOne | backend/apps/bookings/services/availability_service.py:202-205 | one call adds at most one block, and only by splitting one |
| Availability.SubtractAllCovers | backend/apps/bookings/services/availability_service.py:74-98 | folding over windows covers what was covered minus all of them |
| Availability.CutOrderIrrelevant | backend/apps/bookings/services/availability_service.py:74-98 | any permutation of the windows covers the same instants |
| Availability.SubtractAllOrdered | backend/apps/bookings/services/availability_service.py:74-98 | windows that are not inverted leave sorted disjoint slots, at most one more per window |
| Slots.GetAvailability | backend/apps/bookings/services/availability_service.py:42-100 | both subtraction loops against the specification, with the empty answers and the failure on unset hours |
| Slots.OfferedExact | backend/apps/bookings/services/availability_service.py:56-100 | a time is offered if and only if it is working time and no selected window's time-of-day projection takes it |
| Slots.WindowExact | backend/apps/bookings/services/availability_service.py:79-84 | a window's projection takes out exactly what the window occupies of the date if and only if it misses the date, or ends on it and starts on it or at an earlier midnight |
| Slots.ViewExact | backend/apps/bookings/services/availability_service.py:56-100 | when all touching windows are of that kind (same-day windows are) the slots are exactly the working hours minus all commitments |
| Slots.SameDayProjectable | backend/apps/bookings/services/availability_service.py:79-84 | a window that starts and ends on the date is of that kind |
| Slots.DaysOffExact | backend/apps/bookings/services/availability_service.py:44-58 | the view is refused only for an active day without its hours, and any offered time is on a day that is active with hours |
| Slots.WholeDaysInvisible | backend/apps/bookings/services/scheduling_service.py:41-42 | a window of whole days projects to an empty range and removes no instant |
| Slots.BookingsInvisible | backend/apps/bookings/services/availability_service.py:66-84 | in every reachable calendar bookings take nothing out of the day view |
| Delivery.StepSoundExactly | backend/apps/notification/tasks.py:45-115 | from a sound world a step keeps the claim law and all else that makes it sound if and only if it is neither a sweep writing back a row claimed since its read nor a task claiming a row no longer pending |
| Delivery.RunSound | backend/apps/notification/tasks.py:45-115 | under any interleaving and overlap of tasks, retries, crashes and sweeps without such a step: claims equal the retry counter plus the one in progress or done, hence at most eleven; retry records number 1, 2, 3, ...; one task at work at most |
| Delivery.ApartIsCurrent | backend/apps/notification/tasks.py:191-206 | one sweep at a time, and one task at a time between finding the row and claiming it, rule such steps out |
| Delivery.SentLeavesExactly | backend/apps/notification/tasks.py:61-78 | a sent row leaves sent if and only if a success that could not be audited is marked failed, a sweep writes late or a task claims late |
| Delivery.SentAbsorbing | backend/apps/notification/tasks.py:61-78 | sent is absorbing in every run, overlapping sweeps and tasks included, in which no audit write of a success fails, no sweep writes back a row claimed since its read and no task claims one no longer pending |
| Delivery.OverlapSendsAgain | backend/apps/notification/tasks.py:191-202 | a run without audit failure in which a late sweep write takes a sent notification back and it is sent again |
| Delivery.LostAuditSendsTwice | backend/apps/notification/tasks.py:73-84 | if that audit write fails, the row is failed, swept and sent again |
| Delivery.GivenUpLeavesExactly | backend/apps/notification/tasks.py:194-202 | a step changes a dead-lettered delivery, or one failed at ten retries, if and only if it is the late write of a sweep or the late claim of a task |
| Delivery.GivenUpForever | backend/apps/notification/tasks.py:194-197 | with no such step such a delivery is never touched again, whatever tasks and sweeps are unfinished |
| Delivery.StaleSweepExact | backend/apps/notification/tasks.py:199-202 | a sweep reads, anything sound runs, the sweep writes: the write keeps the claim law if and only if no action in between claimed the row |
| Delivery.StaleClaimExact | backend/apps/notification/tasks.py:47-59 | a task finds the row pending, anything sound runs, the task claims it: the claim law survives if and only if each claim in between has been paid for by one more retry |
| Delivery.OverlapRepeatsAttempt | backend/apps/notification/tasks.py:191-202 | two overlapping sweeps record an attempt number twice |
| Delivery.OverlapSendsTwice | backend/apps/notification/tasks.py:47-71 | two tasks that both find a row pending both send it, with no failure and no sweep |
| DeliveryService.DeliveryTable.CreateDelivery | backend/apps/notification/services.py:49-56 | a new delivery starts pending |
| DeliveryService.DeliveryTable.ClassifyAndHandleFailure | backend/apps/notification/services.py:142-165 | only transient failures are recorded and left failed; permanent ones are dead-lettered |
| DeliveryService.DeliveryTable.DispatchEmail | backend/apps/notification/tasks.py:45-115 | the whole e-mail task in place, ending as `DeliveryEnds.EmailTaskEnds` says for every verdict |
| DeliveryService.DeliveryTable.DispatchPush | backend/apps/notification/tasks.py:117-139 | the whole push task in place, ending as `DeliveryEnds.PushTaskEnds` says |
| DeliveryService.DeliveryTable.SweepTransientFailures | backend/apps/notification/tasks.py:191-202 | the loop writes each fetched row back from what was read |
| DeliveryService.SweepExact | backend/apps/notification/tasks.py:199-202 | exactly the fetched rows go back to pending with one more retry |
| DeliveryService.Picks | backend/apps/notification/tasks.py:194-197 | a sweep fetches only failed rows below ten retries, at most a thousand, and all of them if there are fewer |
| DeliveryService.EmailTaskIsRun | backend/apps/notification/tasks.py:45-115 | an undisturbed e-mail task is one run of the interleaved machine |
| DeliveryService.PushTaskIsRun | backend/apps/notification/tasks.py:117-139 | an undisturbed push task is one run of the interleaved machine |
| DeliveryService.SweepIsRun | backend/apps/notification/tasks.py:191-202 | an undisturbed sweep of one failed row is one run of the interleaved machine |
| DeliveryEnds.LastWriteDecides | backend/apps/notification/tasks.py:45-139 | after any run, overlaps included, the status is the one written last by a claim, an acceptance, a rejection of an e-mail, a failure marking or a sweep |
| DeliveryEnds.EndsForAReason | backend/apps/notification/tasks.py:61-115 | from a new delivery, in any run: it reads sent only if the provider accepted it for a sending task, dead-lettered only if it rejected such an e-mail, failed only if a task marked it after its record |
| DeliveryEnds.RejectedForever | backend/apps/notification/tasks.py:85-115 | once the provider rejects an e-mail the delivery is dead-lettered without a recorded attempt, and stays so in every later current run |
| DeliveryEnds.ChannelEnds | backend/apps/notification/tasks.py:117-139 | in any run a push delivery is never dead-lettered, and an in-app one never leaves pending |
| DeliveryEnds.EmailTaskEnds | backend/apps/notification/tasks.py:45-115 | a whole e-mail task ends sent, dead-lettered or failed exactly by the provider's verdict and the success audit, recording an attempt exactly when it fails, and leaves a delivery that is not pending alone |
| DeliveryEnds.PushTaskEnds | backend/apps/notification/tasks.py:117-139 | a whole push task ends sent or failed exactly by whether the provider accepts |
| DeliveryEnds.SweepPutsBack | backend/apps/notification/tasks.py:191-202 | a sweep puts back exactly the first thousand failed deliveries with fewer than ten retries, each with one more |
| DeliveryEnds.ElevenAttempts | backend/apps/notification/tasks.py:191-206 | the bound is reached: a run with eleven attempts after which no sweep takes the delivery |
| Sessions.AtMostTwoActive | backend/apps/authentication/services/auth_service.py:622-648 | after any run a user has at most one active session per device class and two in all |
| Sessions.InactiveForever | backend/apps/authentication/services/auth_service.py:239-338 | an inactive session never becomes active again |
| Sessions.RefreshExact | backend/apps/authentication/services/auth_service.py:280-322 | a refresh succeeds if and only if the token is live, its session active and not timed out, its user active under the same role version, and the new identifier fresh |
| Sessions.SignInThenRefresh | backend/apps/authentication/services/auth_service.py:593-648 | the token a sign-in hands out refreshes if and only if neither the token's lifetime nor the session's twenty days have passed and the new identifier is fresh |
| Sessions.RefreshConsumes | backend/apps/authentication/services/auth_service.py:302-307 | a refresh that gets past its account check closes its session even if it then fails |
| Sessions.SingleUse | backend/apps/authentication/services/auth_service.py:280-322 | each refresh identifier yields at most one successful refresh in any run |
| Sessions.ClosedNeverRefreshes | backend/apps/authentication/services/auth_service.py:651-658 | a token whose session was closed never refreshes again, even after its blacklist entry is deleted |
| SessionEnds.DeviceClassExact | backend/apps/authentication/services/auth_service.py:612-621 | a session is of the mobile class if and only if its user agent contains Mobile, iPhone or Android |
| SessionEnds.SignInExact | backend/apps/authentication/services/auth_service.py:100-172 | a sign-in succeeds if and only if the account exists, is active (a second factor does not look) and the identifier is fresh |
| SessionEnds.SignInWrites | backend/apps/authentication/services/auth_service.py:593-648 | a sign-in hands out one token under the account's role version, opens a twenty-day session, closes exactly the active ones of that user and class, and uses up exactly their outstanding tokens |
| SessionEnds.DeadTokenRefused | backend/apps/authentication/services/auth_service.py:280-300 | a refresh of a token that is used up, expired or without an active session changes nothing |
| SessionEnds.RefusedRefreshWrites | backend/apps/authentication/services/auth_service.py:280-322 | what a refresh of a live token leaves, by cause: a timed-out session closed, nothing, or the token used up with its session closed |
| SessionEnds.RefreshWrites | backend/apps/authentication/services/auth_service.py:302-322 | a refresh that succeeds is a sign-in of the same user and role version after the token was used up and its session closed, recorded as one rotation |
| SessionEnds.LogoutExact | backend/apps/authentication/services/auth_service.py:239-261 | a logout succeeds if and only if the token is live; then its identifier is used up and exactly its session is closed |
| SessionEnds.SignedOutEverywhere | backend/apps/authentication/services/auth_service.py:264-269 | signing out everywhere, revoking and closing leave the user no active session and other users' sessions as they are |
| SessionEnds.SignedOutTokens | backend/apps/authentication/services/auth_service.py:264-269 | of the three only signing out uses up exactly the user's outstanding tokens, and only revoking forgets them |
| SessionEnds.RunHasSessions | backend/apps/authentication/services/auth_service.py:593-648 | in every run each token handed out has a session of its user |
| SessionEnds.LoggedOutForever | backend/apps/authentication/services/auth_service.py:239-261 | a token logged out never refreshes again, after any later run |
| SessionEnds.SignedOutForever | backend/apps/authentication/services/auth_service.py:651-658 | no token a user had when signed out everywhere, by any of the three calls, refreshes after any later run |
| SessionEnds.ChangedAccountRefuses | backend/apps/authentication/services/auth_service.py:302-307 | once an account is inactive or under a new role version, its earlier tokens are refused |
| SessionEnds.AccountsWrite | backend/apps/roles/services/role_service.py:197-201 | registering and changing an account touch no session and no token |
| SessionRace.RaceKept | backend/apps/authentication/services/auth_service.py:593-648 | however refreshes, sign-ins and other calls overlap, no two sessions share an identifier, and a session that a refresh replaces has been closed |
| SessionRace.StepOnePerClassExactly | backend/apps/authentication/services/auth_service.py:622-648 | a step keeps users at one active session per device class if and only if it does not insert a session while one of that user and class is active that its query has not read |
| SessionRace.StaleInsertExact | backend/apps/authentication/services/auth_service.py:622-648 | a session is queried for, anything runs, it is inserted: one active session per class remains if and only if none of its user and class that was inserted in between is still active |
| SessionRace.ApartAtMostTwoActive | backend/apps/authentication/services/auth_service.py:622-648 | in every run in which no two sessions of one user and device class are being opened at a time, a user has at most one active session per class and two in all, whatever else overlaps |
| SessionRace.TwoActiveOfOneClass | backend/apps/authentication/services/auth_service.py:622-648 | from the empty desk, a run in which two overlapping sign-ins leave two active sessions of one device class |
| SessionRace.SingleUseExactly | backend/apps/authentication/services/auth_service.py:286-312 | a step keeps every identifier's successful refreshes down to one if and only if it does not finish a refresh of one that has been rotated |
| SessionRace.StaleRefreshExact | backend/apps/authentication/services/auth_service.py:286-312 | a refresh passes its tests, anything runs, it ends successfully: its identifier is used once if and only if no other refresh of it ended successfully in between |
| SessionRace.AloneSingleUse | backend/apps/authentication/services/auth_service.py:286-312 | every run in which no two refreshes of one identifier are unfinished at a time uses each identifier once, whatever else overlaps |
| SessionRace.BothSucceed | backend/apps/authentication/services/auth_service.py:286-312 | if either of two refreshes of a token would succeed alone, both do when they overlap: two new tokens, and two active sessions of one class |
| SessionRace.OneTokenTwice | backend/apps/authentication/services/auth_service.py:286-312 | from the empty desk, a user signs in and the one token is refreshed twice at the same time |
| SessionRace.UndisturbedRefresh | backend/apps/authentication/services/auth_service.py:280-322 | a refresh that tests, writes, queries and inserts undisturbed is the serial one |
| SessionRace.UndisturbedSignIn | backend/apps/authentication/services/auth_service.py:593-648 | so is a sign-in, with or without a second factor |
| SessionService.AuthDesk.Displace | backend/apps/authentication/services/auth_service.py:625-639 | the loop closes exactly the user's active sessions of the device class and blacklists their outstanding tokens |
| SessionService.AuthDesk.TrackSession | backend/apps/authentication/services/auth_service.py:593-648 | displacement stays written even when the new session is refused |
| SessionService.AuthDesk.LogIn | backend/apps/authentication/services/auth_service.py:100-172 | with accepted credentials an active user gets a token and a tracked session, an inactive one gets neither |
| SessionService.AuthDesk.CompleteSecondFactor | backend/apps/authentication/services/auth_service.py:217-226 | the same without looking at the account's active flag again |
| SessionService.AuthDesk.RotateToken | backend/apps/authentication/services/auth_service.py:280-338 | refresh statement by statement, with what each failure leaves behind |
| SessionService.AuthDesk.LogOut | backend/apps/authentication/services/auth_service.py:239-261 | uses up a live token and closes its session, as `SessionEnds.LogoutExact` says |
| SessionService.AuthDesk.LogOutEverywhere | backend/apps/authentication/services/auth_service.py:264-269 | blacklists every outstanding token and closes every session of the user |
| SessionService.AuthDesk.RevokeAllSessions | backend/apps/authentication/services/auth_service.py:651-658 | closes sessions and deletes outstanding tokens together with their blacklist entries |
| Retention.AuditTable.ArchiveLoop | backend/apps/audit_logs/services/retention_service.py:62-80 | terminates; with a positive batch size and permitted updates archives exactly the matching rows and counts them, whatever rows each batch happens to pick |
| Retention.AuditTable.PurgeLoop | backend/apps/audit_logs/services/retention_service.py:83-101 | terminates; with a positive batch size deletes exactly the rows that `Retention.KeptExact` says go, and counts them |
| Retention.AuditTable.RunRetention | backend/apps/audit_logs/services/retention_service.py:34-106 | result, counts and remaining table in place, as `Retention.RunExact` says for every batch size |
| Retention.KeptExact | backend/apps/audit_logs/services/retention_service.py:42-52 | a run deletes exactly the unheld general rows older than 365 days and stamps exactly the unheld, unstamped security rows older than 7 * 365 days; all other rows are unchanged |
| Retention.RunExact | backend/apps/audit_logs/services/retention_service.py:42-106 | result, counts and table of a run for every batch size and both answers of the trigger, by class, hold and age of the rows |
| Retention.DryRunPredictsExactly | backend/apps/audit_logs/services/retention_service.py:103-106 | a dry run changes nothing and predicts the real run if and only if nothing matches, or the batch size is positive and archiving is permitted where needed |
| Retention.BatchSizeExact | backend/apps/audit_logs/services/retention_service.py:62-101 | two batch sizes have the same result and leave the same table if and only if nothing matches or they have the same sign |
| Retention.RetentionIdempotent | backend/apps/audit_logs/services/retention_service.py:62-101 | after a successful run a second one at the same time finds nothing |
| Retention.ForbiddenUpdateBlocksPurge | backend/apps/audit_logs/migrations/0004_retention_trigger_bypass.py:7-8 | where updates are refused, one archivable row stops the run before anything is purged |

## Left out

- UUID primary keys are row numbers, tables never lose rows except blackouts and purged audit rows, and identifiers that the database or library would draw at random are inputs.
- Paystack, Resend and push providers, HMAC and JWT checking, and conversions to float at the provider boundary: outcomes are inputs.
- `RequestProcessOrchestrator.sync`, the request state machine, event publishing and `on_commit` callbacks; whether a balance payment is allowed by the request status is an input.
- Permission tables; callers are authorised, and only the guard against cancelling a paid payment is kept.
- Audit writes succeed and write nothing the model reads, except booking entries, the success entry of an e-mail, and the low-stock alert.
- Columns such as `updated_at` and the reminder stamp, browser names and addresses, and the text form of time stamps in the audit log.
- The `NameError` in place of the intended error in `availability_service.py` (`ValidationError` is not imported there): the call is refused and rolled back either way.
- Working-hours updates, the reminder job, the no-show monitor, low-stock jobs, product archiving rules, categories and carts: they would add easy members.
- Password, e-mail verification, lockout and one-time-code flows; a completed second factor is one command.
- Sessions at a finer grain than `SessionRace`: the tests of a refresh, the writes that use up its token together with the query, and the closing of the rows read together with the insert are one step each, and so is every other call.
- Concurrency of the ledger's transactions beyond `CreditRace`, `PaymentRace` and `QuoteRace`: there orders, stock and the opening of order payments take one step per call, and elsewhere transactions run one after the other, whether or not they take locks.
- Retention: the entry that the run itself logs, and a trigger or slicing failure in the middle of a loop.
