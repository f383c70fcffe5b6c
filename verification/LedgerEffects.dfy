/** When each ledger call commits and what it then writes, stated on the rows themselves: for every database that is
    well formed, the condition is exact and no other row changes. */
module LedgerEffects {
  import opened Prelude
  import opened Inventory
  import opened Ledger
  import opened LedgerStructure

  // ---------------------------------------------------------------- webhooks

  /** A failed charge marks the payment failed, for an order as for a quote; an unhandled event writes nothing. */
  lemma FailureWrites(db: Db, reference: string, i: nat)
    requires FindFirst(db.payments, WithReference(reference)) == Some(i)
    requires !db.payments[i].status.Paid? && !db.payments[i].status.Cancelled?
    ensures Step(db, Webhook(reference, Failure)) ==
            db.(payments := db.payments[i := db.payments[i].(status := PaymentStatus.Failed)])
    ensures Step(db, Webhook(reference, Unhandled)) == db
  {}

  /** No event touches a paid or cancelled payment, and one for an unknown reference is refused. */
  lemma WebhookIgnores(db: Db, reference: string, event: ChargeEvent)
    requires forall i :: 0 <= i < |db.payments| && db.payments[i].reference == reference ==>
               db.payments[i].status.Paid? || db.payments[i].status.Cancelled?
    ensures Step(db, Webhook(reference, event)) == db
    ensures Execute(db, Webhook(reference, event)).Commit? <==>
            exists i :: 0 <= i < |db.payments| && db.payments[i].reference == reference
  {
    var found := FindFirst(db.payments, WithReference(reference));
    if found.Some? {
      assert db.payments[found.value].reference == reference;
    } else {
      forall i | 0 <= i < |db.payments| ensures db.payments[i].reference != reference {
        assert !WithReference(reference)(db.payments[i]);
      }
    }
  }

  /** The lines of the order a payment is for. */
  function LinesFor(db: Db, p: Payment): seq<Line> {
    if p.order.Some? && p.order.value < |db.orders| then LinesOf(db.orders[p.order.value].items) else []
  }

  /** A successful charge marks the payment paid; its order is then paid, with its lines taken off the shelf if they
      are covered, or its quote is credited with the amount. */
  lemma ChargeWrites(db: Db, reference: string, i: nat)
    requires WellFormed(db) && FindFirst(db.payments, WithReference(reference)) == Some(i)
    requires !db.payments[i].status.Paid? && !db.payments[i].status.Cancelled?
    requires Execute(db, Webhook(reference, Success)).Commit?
    ensures var p, db' := db.payments[i], Step(db, Webhook(reference, Success));
            && db'.payments == db.payments[i := p.(status := PaymentStatus.Paid)]
            && db'.alertRaises == db.alertRaises
            && (match p.order
                case None => db'.orders == db.orders && db'.products == db.products
                case Some(o) =>
                  && o < |db.orders| && db'.quotes == db.quotes
                  && db'.orders == db.orders[o := db.orders[o].(status := OrderStatus.Paid)]
                  && if Coverable(db.products, LinesFor(db, p), db.alertRaises)
                     then Shifted(db.products, db'.products, LinesFor(db, p), -1)
                     else db'.products == db.products)
            && (match p.quote
                case None => db'.quotes == db.quotes
                case Some(q) =>
                  && q < |db.quotes|
                  && var paid := db.quotes[q].paid + p.amount;
                  && db'.quotes ==
                     db.quotes[q := Quote(db.quotes[q].amount, paid,
                                          if paid >= db.quotes[q].amount then QuoteStatus.Paid
                                          else QuoteStatus.PartiallyPaid, db.quotes[q].plan)])
  {
    var p := db.payments[i];
    assert PaymentOwned(p, db.orders, db.quotes);
    if p.order.Some? {
      LinesPositive(db, p.order.value);
      ReduceExact(db.products, LinesFor(db, p), db.alertRaises);
    }
  }

  // ---------------------------------------------------------------- openings

  /** Every payment with this reference, if there is one, satisfies the filter. */
  predicate OnlyOn(payments: seq<Payment>, reference: string, p: Payment -> bool) {
    forall i :: 0 <= i < |payments| && payments[i].reference == reference ==> p(payments[i])
  }

  /** The row matching the filter, if there is one, is rewritten; otherwise one is added. */
  predicate Upserted(payments: seq<Payment>, p: Payment -> bool, rewritten: Payment -> Payment, added: Payment,
                     after: seq<Payment>)
  {
    && (forall i :: 0 <= i < |payments| && p(payments[i]) ==> after == payments[i := rewritten(payments[i])])
    && ((forall i :: 0 <= i < |payments| ==> !p(payments[i])) ==> after == payments + [added])
  }

  predicate AtMostOne(payments: seq<Payment>, p: Payment -> bool) {
    forall i, j :: 0 <= i < |payments| && 0 <= j < |payments| && p(payments[i]) && p(payments[j]) ==> i == j
  }

  lemma OneForEach(db: Db, order: int, quote: int, reference: string)
    requires WellFormed(db)
    ensures AtMostOne(db.payments, ForOrder(order))
    ensures AtMostOne(db.payments, PendingFor(quote))
    ensures AtMostOne(db.payments, WithReference(reference))
  {
    forall i, j | 0 <= i < |db.payments| && 0 <= j < |db.payments| && i != j
      ensures !(ForOrder(order)(db.payments[i]) && ForOrder(order)(db.payments[j]))
      ensures !(PendingFor(quote)(db.payments[i]) && PendingFor(quote)(db.payments[j]))
      ensures !(WithReference(reference)(db.payments[i]) && WithReference(reference)(db.payments[j]))
    {
      assert Apart(db.payments[i], db.payments[j]);
    }
  }

  /** Opening the payment of an order commits if and only if the order exists, nothing but its own payment has the
      reference, and the provider answers. */
  lemma OrderOpeningCommits(db: Db, order: int, reference: string, now: int, providerUp: bool)
    requires WellFormed(db)
    ensures Execute(db, InitializePayment(order, reference, now, providerUp)).Commit? <==>
            && 0 <= order < |db.orders| && providerUp
            && OnlyOn(db.payments, reference, (p: Payment) => p.order.Some? && p.order.value == order)
  {
    if 0 <= order < |db.orders| {
      OneForEach(db, order, 0, reference);
    }
  }

  /** It then resets the order to pending payment and its payment to pending, under the new reference, at the total. */
  lemma OrderOpeningWrites(db: Db, order: int, reference: string, now: int, providerUp: bool)
    requires WellFormed(db) && Execute(db, InitializePayment(order, reference, now, providerUp)).Commit?
    ensures var db' := Step(db, InitializePayment(order, reference, now, providerUp));
            && 0 <= order < |db.orders|
            && db' == db.(orders := db'.orders, payments := db'.payments)
            && db'.orders == db.orders[order := db.orders[order].(status := OrderStatus.PendingPayment)]
            && Upserted(db.payments, (p: Payment) => p.order.Some? && p.order.value == order,
                        (p: Payment) => p.(reference := reference, status := PaymentStatus.Pending),
                        Payment(Some(order), None, reference, db.orders[order].total, PaymentStatus.Pending, now),
                        db'.payments)
  {
    OneForEach(db, order, 0, reference);
    var found := FindFirst(db.payments, ForOrder(order));
    if found.Some? { assert ForOrder(order)(db.payments[found.value]); }
  }

  /** What a plan asks for, in kobo: the rest, or half of the amount while less than half is credited. */
  function Share(quote: Quote, plan: Plan, roundUp: bool): int {
    if plan.Full? || 2 * quote.paid >= quote.amount then quote.amount - quote.paid
    else if roundUp then (quote.amount + 1) / 2 else quote.amount / 2
  }

  /** Opening a payment of a quote commits if and only if the quote exists and owes something, the plan is known, the
      second half of a fifty-fifty plan is allowed where it is due, nothing but the quote's pending payment has the
      reference, and the provider answers. */
  lemma QuoteOpeningCommits(db: Db, c: Command)
    requires WellFormed(db) && c.InitializeQuotePayment?
    ensures Execute(db, c).Commit? <==>
            && 0 <= c.quote < |db.quotes| && c.providerUp && !c.plan.Unrecognised?
            && var quote := db.quotes[c.quote];
            && (if c.plan.FiftyFifty? && 2 * quote.paid < quote.amount then 0 < quote.amount
                else quote.paid < quote.amount)
            && (c.plan.FiftyFifty? && 2 * quote.paid >= quote.amount ==> c.balanceAllowed)
            && OnlyOn(db.payments, c.reference,
                      (p: Payment) => p.quote.Some? && p.quote.value == c.quote && p.status.Pending?)
  {
    OneForEach(db, 0, c.quote, c.reference);
    if 0 <= c.quote < |db.quotes| { QuoteReferenceFree(db.payments, c.quote, c.reference); }
  }

  lemma QuoteReferenceFree(payments: seq<Payment>, quote: nat, reference: string)
    requires AtMostOne(payments, PendingFor(quote)) && AtMostOne(payments, WithReference(reference))
    ensures UpsertQuotePayment(payments, quote, 0, reference, 0).Commit? <==>
            OnlyOn(payments, reference, (p: Payment) => p.quote.Some? && p.quote.value == quote && p.status.Pending?)
  {
    var found := FindFirst(payments, PendingFor(quote));
    if found.Some? {
      forall i | 0 <= i < |payments| && i != found.value ensures !PendingFor(quote)(payments[i]) {}
    }
  }

  /** It then stores the plan, and the share with the quote's pending payment, under the new reference. */
  lemma QuoteOpeningWrites(db: Db, c: Command)
    requires WellFormed(db) && c.InitializeQuotePayment? && Execute(db, c).Commit?
    ensures var db' := Step(db, c);
            && 0 <= c.quote < |db.quotes|
            && db' == db.(quotes := db'.quotes, payments := db'.payments)
            && db'.quotes == db.quotes[c.quote := db.quotes[c.quote].(plan := Some(c.plan))]
            && var amount := Share(db.quotes[c.quote], c.plan, c.roundUp);
            && Upserted(db.payments,
                        (p: Payment) => p.quote.Some? && p.quote.value == c.quote && p.status.Pending?,
                        (p: Payment) => p.(reference := c.reference, amount := amount),
                        Payment(None, Some(c.quote), c.reference, amount, PaymentStatus.Pending, c.now), db'.payments)
  {
    OneForEach(db, 0, c.quote, c.reference);
    var found := FindFirst(db.payments, PendingFor(c.quote));
    if found.Some? { assert PendingFor(c.quote)(db.payments[found.value]); }
    assert StoredKobo(PlanDue(db.quotes[c.quote], c.plan, c.balanceAllowed).state, c.roundUp) ==
           Share(db.quotes[c.quote], c.plan, c.roundUp);
  }

  // ---------------------------------------------------------------- expiry and overrides

  /** Expiry cancels exactly the pending and failed payments made a day ago or more. */
  lemma ExpiryWrites(db: Db, now: int)
    ensures var db' := Step(db, Expire(now));
            && db' == db.(payments := db'.payments) && |db'.payments| == |db.payments|
            && forall i :: 0 <= i < |db.payments| ==>
                 var p := db.payments[i];
                 db'.payments[i] ==
                   if (p.status.Pending? || p.status.Failed?) && p.createdAt + 24 * 3600 * 1000000 <= now
                   then p.(status := PaymentStatus.Cancelled) else p
  {}

  /** Cancelling and escalating a payment rewrite its status, whatever it was, and nothing else. */
  lemma OverrideWrites(db: Db, payment: int)
    ensures Execute(db, CancelPayment(payment)).Commit? <==> 0 <= payment < |db.payments|
    ensures Execute(db, EscalatePayment(payment)).Commit? <==> 0 <= payment < |db.payments|
    ensures 0 <= payment < |db.payments| ==>
              var p := db.payments[payment];
              && Step(db, CancelPayment(payment)) ==
                 db.(payments := db.payments[payment := p.(status := PaymentStatus.Cancelled)])
              && Step(db, EscalatePayment(payment)) ==
                 db.(payments := db.payments[payment := p.(status := PaymentStatus.Escalated)])
  {}

  /** The payment API lets a cancellation through if and only if the payment exists and is not paid. */
  lemma CancelRequestExact(db: Db, payment: int)
    ensures CancelPaymentRequestTx(db, payment).Commit? <==>
            0 <= payment < |db.payments| && !db.payments[payment].status.Paid?
    ensures CancelPaymentRequestTx(db, payment).Commit? ==>
              CancelPaymentRequestTx(db, payment).state ==
              db.(payments := db.payments[payment := db.payments[payment].(status := PaymentStatus.Cancelled)])
  {}

  // ---------------------------------------------------------------- orders and refunds

  /** The order's lines can go back on the shelf, or need not because it was not paid. */
  predicate CanCancel(db: Db, order: nat)
    requires order < |db.orders|
  {
    db.orders[order].status.Paid? ==> Restockable(db.products, LinesOf(db.orders[order].items), db.alertRaises)
  }

  /** The order is cancelled and, if it was paid, all its lines are back on the shelf. */
  predicate OrderCancelled(db: Db, db': Db, order: nat)
    requires order < |db.orders|
  {
    && db'.orders == db.orders[order := db.orders[order].(status := OrderStatus.Cancelled)]
    && (if db.orders[order].status.Paid?
        then Shifted(db.products, db'.products, LinesOf(db.orders[order].items), 1)
        else db'.products == db.products)
    && db'.quotes == db.quotes && db'.alertRaises == db.alertRaises
  }

  lemma CancelCommits(db: Db, order: int, reason: string)
    requires WellFormed(db)
    ensures CancelOrderTx(db, Some(order), reason).Commit? <==>
            && 0 <= order < |db.orders| && CanCancel(db, order)
            && (db.orders[order].status.Paid? ==> reason == "Payment was refunded")
    ensures CancelOrderTx(db, Some(order), reason).Commit? ==>
              var db' := CancelOrderTx(db, Some(order), reason).state;
              OrderCancelled(db, db', order) && db'.payments == db.payments
  {
    if 0 <= order < |db.orders| {
      var lines := LinesOf(db.orders[order].items);
      LinesPositive(db, order);
      RestockCommitsExactly(db.products, lines, db.alertRaises);
      if Restock(db.products, lines, db.alertRaises).Commit? { RestockExact(db.products, lines, db.alertRaises); }
    }
  }

  /** Cancelling an order commits if and only if it exists and, if it is paid, a refund is the reason and its lines can
      go back on the shelf; then it is cancelled, and nothing but it and those lines changes. */
  lemma CancelOrderExact(db: Db, order: int, reason: string)
    requires WellFormed(db)
    ensures Execute(db, CancelOrder(order, reason)).Commit? <==>
            && 0 <= order < |db.orders| && CanCancel(db, order)
            && (db.orders[order].status.Paid? ==> reason == "Payment was refunded")
    ensures Execute(db, CancelOrder(order, reason)).Commit? ==>
              var db' := Step(db, CancelOrder(order, reason));
              OrderCancelled(db, db', order) && db'.payments == db.payments
  {
    CancelCommits(db, order, reason);
  }

  /** A refund commits if and only if the payment is a paid one of an order whose lines can go back on the shelf, if it
      is paid; then the payment is refunded, the order cancelled, and no refund of it commits again. */
  lemma RefundExact(db: Db, payment: int)
    requires WellFormed(db)
    ensures Execute(db, RefundPayment(payment)).Commit? <==>
            && 0 <= payment < |db.payments| && db.payments[payment].status.Paid?
            && db.payments[payment].order.Some? && db.payments[payment].order.value < |db.orders|
            && CanCancel(db, db.payments[payment].order.value)
    ensures Execute(db, RefundPayment(payment)).Commit? ==>
              var db' := Step(db, RefundPayment(payment));
              && db'.payments == db.payments[payment := db.payments[payment].(status := PaymentStatus.Refunded)]
              && OrderCancelled(db, db', db.payments[payment].order.value)
              && Execute(db', RefundPayment(payment)).Abort?
  {
    if 0 <= payment < |db.payments| && db.payments[payment].order.Some? {
      PaymentStatusKeeps(db, payment, PaymentStatus.Refunded);
      assert PaymentOwned(db.payments[payment], db.orders, db.quotes);
      CancelCommits(SetPaymentStatus(db, payment, PaymentStatus.Refunded), db.payments[payment].order.value,
                    REFUND_REASON);
    }
  }

  /** Fulfilment commits if and only if the order is paid, or fulfilled already; then it is fulfilled. */
  lemma FulfilmentExact(db: Db, order: int)
    ensures Execute(db, FulfillOrder(order)).Commit? <==>
            0 <= order < |db.orders| && (db.orders[order].status.Paid? || db.orders[order].status.Fulfilled?)
    ensures Execute(db, FulfillOrder(order)).Commit? ==>
              Step(db, FulfillOrder(order)) ==
              db.(orders := db.orders[order := db.orders[order].(status := OrderStatus.Fulfilled)])
  {
    if 0 <= order < |db.orders| && db.orders[order].status.Fulfilled? {
      assert db.orders == db.orders[order := db.orders[order].(status := OrderStatus.Fulfilled)];
    }
  }

  /** What a line costs at the catalogue's prices. */
  function CostOf(products: seq<Product>): Line -> int {
    (l: Line) => if 0 <= l.product < |products| then products[l.product].price * l.quantity else 0
  }

  lemma {:induction false} TotalIsCost(products: seq<Product>, lines: seq<Line>)
    requires PriceLines(products, lines).Commit?
    ensures Sum(PriceLines(products, lines).state, LineTotal()) == Sum(lines, CostOf(products))
  {
    if lines != [] {
      TotalIsCost(products, lines[..|lines| - 1]);
      SumAppend(PriceLines(products, lines[..|lines| - 1]).state,
                PriceLine(products, lines[|lines| - 1]).state, LineTotal());
    }
  }

  predicate Unordered(db: Db, request: int) {
    forall o :: 0 <= o < |db.orders| ==> db.orders[o].request != request
  }

  lemma UnorderedIsNew(db: Db, request: int)
    ensures Unordered(db, request) <==> FindFirst(db.orders, ForRequest(request)).None?
  {
    var found := FindFirst(db.orders, ForRequest(request));
    if found.Some? { assert ForRequest(request)(db.orders[found.value]); }
    if found.None? { forall o | 0 <= o < |db.orders| ensures !ForRequest(request)(db.orders[o]) {} }
  }

  /** An order is made from lines if and only if its request has none, each line on its own can be had, and the lines
      cost nothing negative; then exactly one order is added, at that cost. */
  lemma OrderCreationExact(db: Db, request: int, lines: seq<Line>)
    ensures Execute(db, CreateOrder(request, lines)).Commit? <==>
            && Unordered(db, request) && 0 <= Sum(lines, CostOf(db.products))
            && forall i :: 0 <= i < |lines| ==>
                 && 0 <= lines[i].product < |db.products| && !db.products[lines[i].product].archived
                 && 0 < lines[i].quantity <= db.products[lines[i].product].stock
    ensures Execute(db, CreateOrder(request, lines)).Commit? ==>
              var db' := Step(db, CreateOrder(request, lines));
              && db' == db.(orders := db'.orders) && |db'.orders| == |db.orders| + 1
              && db'.orders[..|db.orders|] == db.orders
              && var made := db'.orders[|db.orders|];
              && made.request == request && made.status.Created? && LinesOf(made.items) == lines
              && made.total == Sum(lines, CostOf(db.products))
  {
    UnorderedIsNew(db, request);
    PriceLinesExact(db.products, lines);
    if PriceLines(db.products, lines).Commit? {
      TotalIsCost(db.products, lines);
      PricedItems(db.products, lines);
      assert LinesOf(PriceLines(db.products, lines).state) == lines;
    }
  }

  /** An order is made from a quote unless its amount is negative; a request that has one keeps it. */
  lemma QuoteOrderExact(db: Db, request: int, amount: int)
    ensures Execute(db, CreateOrderFromQuote(request, amount)).Commit? <==> !Unordered(db, request) || 0 <= amount
    ensures Execute(db, CreateOrderFromQuote(request, amount)).Commit? ==>
              Step(db, CreateOrderFromQuote(request, amount)) ==
              if Unordered(db, request)
              then db.(orders := db.orders + [Order(request, OrderStatus.PendingPayment, amount, [])]) else db
  {
    UnorderedIsNew(db, request);
  }

  // ---------------------------------------------------------------- catalogue and quotes

  /** A stock adjustment commits if and only if the level stays non-negative and clear of a failing alert. */
  lemma AdjustmentExact(db: Db, pid: int, amount: int)
    ensures Execute(db, AdjustInventory(pid, amount)).Commit? <==>
            && 0 <= pid < |db.products| && 0 <= db.products[pid].stock + amount
            && (db.alertRaises ==> db.products[pid].threshold < db.products[pid].stock + amount)
    ensures Execute(db, AdjustInventory(pid, amount)).Commit? ==>
              var product := db.products[pid];
              Step(db, AdjustInventory(pid, amount)) ==
              db.(products := db.products[pid := product.(stock := product.stock + amount)])
  {}

  /** The other catalogue calls write the columns they are given, never the stock of a product that exists. */
  lemma CatalogueWrites(db: Db, pid: int, price: int, stock: int, threshold: int, archived: bool)
    ensures Step(db, UpdateThreshold(pid, threshold)) ==
            if 0 <= pid < |db.products| && 0 <= threshold
            then db.(products := db.products[pid := db.products[pid].(threshold := threshold)]) else db
    ensures Step(db, UpdateProduct(pid, price, archived)) ==
            if 0 <= pid < |db.products|
            then db.(products := db.products[pid := db.products[pid].(price := price, archived := archived)]) else db
    ensures Step(db, CreateProduct(price, stock, threshold)) ==
            if 0 <= stock && 0 <= threshold
            then db.(products := db.products + [Product(price, stock, threshold, false)]) else db
  {}

  /** A quote is issued with nothing credited, and a review rewrites its status only. */
  lemma QuoteWrites(db: Db, amount: int, quote: int, status: QuoteStatus)
    ensures Step(db, IssueQuote(amount)) == db.(quotes := db.quotes + [Quote(amount, 0, QuoteStatus.Issued, None)])
    ensures Step(db, ReviewQuote(quote, status)) ==
            if 0 <= quote < |db.quotes| && !status.Paid? && !status.PartiallyPaid?
            then db.(quotes := db.quotes[quote := db.quotes[quote].(status := status)]) else db
  {}
}
