/** The services as they run: methods that change the tables in place inside transactions. */
module LedgerService {
  import opened Prelude
  import opened Inventory
  import opened Ledger
  import opened QuoteBook

  class CommerceStore {
    var products: seq<Product>
    var orders: seq<Order>
    var payments: seq<Payment>
    var quotes: seq<Quote>
    const alertRaises: bool

    constructor (alertRaises: bool)
      ensures Rows() == Empty(alertRaises)
    {
      products, orders, payments, quotes := [], [], [], [];
      this.alertRaises := alertRaises;
    }

    function Rows(): Db
      reads this
    {
      Db(products, orders, payments, quotes, alertRaises)
    }

    method Rollback(saved: Db)
      requires saved.alertRaises == alertRaises
      modifies this
      ensures Rows() == saved
    {
      products, orders, payments, quotes := saved.products, saved.orders, saved.payments, saved.quotes;
    }

    method ReduceInventory(lines: seq<Line>) returns (outcome: Option<Error>)
      modifies this`products
      ensures match Reduce(old(products), lines, alertRaises)
              case Commit(taken) => outcome.None? && products == taken
              case Abort(e) => outcome == Some(e) && products == old(products)
    {
      var savepoint := products;
      var i := 0;
      while i < |lines|
        invariant 0 <= i <= |lines|
        invariant Reduce(savepoint, lines[..i], alertRaises) == Commit(products)
      {
        var line := lines[i];
        assert lines[..i + 1][..i] == lines[..i];
        var failure: Option<Error> := None;
        if !Known(products, line.product) {
          failure := Some(NotFound);
        } else if products[line.product].stock < line.quantity {
          failure := Some(Invalid);
        } else {
          var after := products[line.product].stock - line.quantity;
          if alertRaises && after <= products[line.product].threshold {
            failure := Some(Crashed);
          } else {
            products := products[line.product := products[line.product].(stock := after)];
          }
        }
        if failure.Some? {
          ReduceStops(savepoint, lines, i + 1, alertRaises);
          products := savepoint;
          return failure;
        }
        i := i + 1;
      }
      assert lines[..i] == lines;
      outcome := None;
    }

    method AdjustInventory(pid: int, amount: int) returns (outcome: Option<Error>)
      modifies this`products
      ensures match Adjust(old(products), pid, amount, alertRaises)
              case Commit(adjusted) => outcome.None? && products == adjusted
              case Abort(e) => outcome == Some(e) && products == old(products)
    {
      if !Known(products, pid) {
        return Some(NotFound);
      }
      var after := products[pid].stock + amount;
      if after < 0 {
        return Some(Invalid);
      }
      var savepoint := products;
      products := products[pid := products[pid].(stock := after)];
      if alertRaises && after <= products[pid].threshold {
        products := savepoint;
        return Some(Crashed);
      }
      outcome := None;
    }

    method CreateOrder(request: int, lines: seq<Line>) returns (outcome: Option<Error>)
      modifies this`orders
      ensures Reflects(outcome, CreateOrderTx(old(Rows()), request, lines), old(Rows()), Rows())
    {
      if FindFirst(orders, ForRequest(request)).Some? {
        return Some(Invalid);
      }
      var total := 0;
      var items: seq<Item> := [];
      var i := 0;
      while i < |lines|
        invariant 0 <= i <= |lines|
        invariant PriceLines(products, lines[..i]) == Commit(items)
        invariant total == Sum(items, LineTotal())
        invariant Rows() == old(Rows())
      {
        var line := lines[i];
        assert lines[..i + 1][..i] == lines[..i];
        var priced := PriceLine(products, line);
        if priced.Abort? {
          PriceLinesStops(products, lines, i + 1);
          return Some(priced.error);
        }
        SumAppend(items, priced.state, LineTotal());
        total := total + priced.state.lineTotal;
        items := items + [priced.state];
        i := i + 1;
      }
      assert lines[..i] == lines;
      if total < 0 {
        return Some(Conflict);
      }
      orders := orders + [Order(request, OrderStatus.Created, total, items)];
      outcome := None;
    }

    method RequirePayment(order: int) returns (outcome: Option<Error>)
      modifies this`orders
      ensures Reflects(outcome, RequirePaymentTx(old(Rows()), order), old(Rows()), Rows())
    {
      if !OrderExists(Rows(), order) {
        return Some(NotFound);
      }
      orders := orders[order := orders[order].(status := OrderStatus.PendingPayment)];
      outcome := None;
    }

    method ProcessPaymentPaid(order: int) returns (outcome: Option<Error>)
      modifies this`orders, this`products
      ensures Reflects(outcome, ProcessPaidTx(old(Rows()), order), old(Rows()), Rows())
    {
      if !OrderExists(Rows(), order) {
        return Some(NotFound);
      }
      if !Payable(orders[order].status) {
        return Some(Invalid);
      }
      var saved := orders;
      orders := orders[order := orders[order].(status := OrderStatus.Paid)];
      var shortfall := ReduceInventory(LinesOf(orders[order].items));
      if shortfall == Some(Crashed) {
        orders := saved;
        return shortfall;
      }
      outcome := None;
    }

    method CancelOrder(order: Option<int>, reason: string) returns (outcome: Option<Error>)
      modifies this`orders, this`products
      ensures Reflects(outcome, CancelOrderTx(old(Rows()), order, reason), old(Rows()), Rows())
    {
      if order.None? || !OrderExists(Rows(), order.value) {
        return Some(NotFound);
      }
      var id := order.value;
      var previous := orders[id].status;
      if previous.Paid? && reason != REFUND_REASON {
        return Some(Invalid);
      }
      var savedOrders, savedProducts := orders, products;
      orders := orders[id := orders[id].(status := OrderStatus.Cancelled)];
      if previous.Paid? {
        var lines := LinesOf(orders[id].items);
        var i := 0;
        while i < |lines|
          invariant 0 <= i <= |lines|
          invariant Restock(savedProducts, lines[..i], alertRaises) == Commit(products)
          invariant orders == savedOrders[id := savedOrders[id].(status := OrderStatus.Cancelled)]
        {
          assert lines[..i + 1][..i] == lines[..i];
          var failure := AdjustInventory(lines[i].product, lines[i].quantity);
          if failure.Some? {
            RestockStops(savedProducts, lines, i + 1, alertRaises);
            orders, products := savedOrders, savedProducts;
            return failure;
          }
          i := i + 1;
        }
        assert lines[..i] == lines;
      }
      outcome := None;
    }

    method FulfillOrder(order: int) returns (outcome: Option<Error>)
      modifies this`orders
      ensures Reflects(outcome, FulfillOrderTx(old(Rows()), order), old(Rows()), Rows())
    {
      if !OrderExists(Rows(), order) {
        return Some(NotFound);
      }
      if orders[order].status.Fulfilled? {
        return None;
      }
      if !orders[order].status.Paid? {
        return Some(Invalid);
      }
      orders := orders[order := orders[order].(status := OrderStatus.Fulfilled)];
      outcome := None;
    }

    method InitializePayment(order: nat, amount: int, reference: string, now: int, providerUp: bool)
      returns (outcome: Option<Error>)
      modifies this
      ensures Reflects(outcome, InitializePaymentTx(old(Rows()), order, amount, reference, now, providerUp),
                       old(Rows()), Rows())
    {
      var saved := Rows();
      var found := FindFirst(payments, ForOrder(order));
      if ReferenceTaken(payments, reference, if found.Some? then found.value else -1) {
        return Some(Conflict);
      }
      if found.Some? {
        var row := payments[found.value].(reference := reference, status := PaymentStatus.Pending);
        payments := payments[found.value := row];
      } else {
        payments := payments + [Payment(Some(order), None, reference, amount, PaymentStatus.Pending, now)];
      }
      outcome := RequirePayment(order);
      if outcome.None? && !providerUp {
        outcome := Some(ProviderFailed);
      }
      if outcome.Some? {
        Rollback(saved);
      }
    }

    /** The amount the plan asks for, in half kobo; stored either way it still fits the quote. */
    method QuoteDue(quote: Quote, plan: Plan, balanceAllowed: bool) returns (due: Tx<int>)
      ensures due == PlanDue(quote, plan, balanceAllowed)
      ensures due.Commit? && due.state > 0 ==>
                forall roundUp :: 0 <= StoredKobo(due.state, roundUp) <= quote.amount - quote.paid
    {
      if PlanDue(quote, plan, balanceAllowed).Commit? && PlanDue(quote, plan, balanceAllowed).state > 0 {
        PlanFits(quote, plan, balanceAllowed, true);
        PlanFits(quote, plan, balanceAllowed, false);
      }
      match plan {
        case Full => due := Commit(2 * (quote.amount - quote.paid));
        case FiftyFifty =>
          if 2 * quote.paid >= quote.amount {
            if !balanceAllowed {
              return Abort(Invalid);
            }
            due := Commit(2 * (quote.amount - quote.paid));
          } else {
            due := Commit(quote.amount);
          }
        case Unrecognised => due := Abort(Invalid);
      }
    }

    method SaveQuotePayment(quote: nat, amount: int, reference: string, now: int) returns (outcome: Option<Error>)
      modifies this`payments
      ensures match UpsertQuotePayment(old(payments), quote, amount, reference, now)
              case Commit(saved) => outcome.None? && payments == saved
              case Abort(e) => outcome == Some(e) && payments == old(payments)
    {
      var found := FindFirst(payments, PendingFor(quote));
      if ReferenceTaken(payments, reference, if found.Some? then found.value else -1) {
        return Some(Conflict);
      }
      if found.Some? {
        payments := payments[found.value := payments[found.value].(reference := reference, amount := amount)];
      } else {
        payments := payments + [Payment(None, Some(quote), reference, amount, PaymentStatus.Pending, now)];
      }
      outcome := None;
    }

    method InitializeQuotePayment(quote: int, plan: Plan, balanceAllowed: bool, reference: string, now: int,
                                  roundUp: bool, providerUp: bool) returns (outcome: Option<Error>)
      modifies this
      ensures Reflects(outcome,
                       InitializeQuotePaymentTx(old(Rows()), quote, plan, balanceAllowed, reference, now,
                                                roundUp, providerUp),
                       old(Rows()), Rows())
    {
      if !QuoteExists(Rows(), quote) {
        return Some(NotFound);
      }
      var due := QuoteDue(quotes[quote], plan, balanceAllowed);
      if due.Abort? {
        return Some(due.error);
      }
      if due.state <= 0 {
        return Some(Invalid);
      }
      var saved := Rows();
      quotes := quotes[quote := quotes[quote].(plan := Some(plan))];
      outcome := SaveQuotePayment(quote, StoredKobo(due.state, roundUp), reference, now);
      if outcome.None? && !providerUp {
        outcome := Some(ProviderFailed);
      }
      if outcome.Some? {
        Rollback(saved);
      }
    }

    /** The expiry job: every overdue row is cancelled, one after the other. */
    method ExpirePayments(now: int)
      modifies this`payments
      ensures Rows() == Step(old(Rows()), Expire(now))
    {
      ghost var before := payments;
      var i := 0;
      while i < |payments|
        invariant 0 <= i <= |payments| == |before|
        invariant forall k :: 0 <= k < i ==> payments[k] == ExpireOne(before[k], now)
        invariant forall k :: i <= k < |before| ==> payments[k] == before[k]
      {
        if Overdue(payments[i], now) {
          payments := payments[i := payments[i].(status := PaymentStatus.Cancelled)];
        }
        i := i + 1;
      }
      assert payments == Ledger.ExpirePayments(before, now);
    }

    method CancelPayment(payment: int) returns (outcome: Option<Error>)
      modifies this`payments
      ensures Reflects(outcome, CancelPaymentTx(old(Rows()), payment), old(Rows()), Rows())
    {
      if !PaymentExists(Rows(), payment) {
        return Some(NotFound);
      }
      payments := payments[payment := payments[payment].(status := PaymentStatus.Cancelled)];
      outcome := None;
    }

    method RefundPayment(payment: int) returns (outcome: Option<Error>)
      modifies this
      ensures Reflects(outcome, RefundPaymentTx(old(Rows()), payment), old(Rows()), Rows())
    {
      if !PaymentExists(Rows(), payment) {
        return Some(NotFound);
      }
      if !payments[payment].status.Paid? {
        return Some(Invalid);
      }
      var saved := Rows();
      payments := payments[payment := payments[payment].(status := PaymentStatus.Refunded)];
      outcome := CancelOrder(payments[payment].order, REFUND_REASON);
      if outcome.Some? {
        Rollback(saved);
      }
    }

    method EscalatePayment(payment: int) returns (outcome: Option<Error>)
      modifies this`payments
      ensures Reflects(outcome, EscalatePaymentTx(old(Rows()), payment), old(Rows()), Rows())
    {
      if !PaymentExists(Rows(), payment) {
        return Some(NotFound);
      }
      payments := payments[payment := payments[payment].(status := PaymentStatus.Escalated)];
      outcome := None;
    }

    method ProcessWebhook(reference: string, event: ChargeEvent) returns (outcome: Option<Error>)
      modifies this
      ensures Reflects(outcome, WebhookTx(old(Rows()), reference, event), old(Rows()), Rows())
    {
      var found := FindFirst(payments, WithReference(reference));
      if found.None? {
        return Some(NotFound);
      }
      var payment := payments[found.value];
      if Settled(payment.status) {
        return None;
      }
      var saved := Rows();
      if event.Success? {
        payments := payments[found.value := payment.(status := PaymentStatus.Paid)];
        if payment.order.Some? {
          outcome := ProcessPaymentPaid(payment.order.value);
          if outcome.Some? {
            Rollback(saved);
            return;
          }
        }
        if payment.quote.Some? {
          var quote := payment.quote.value;
          if !QuoteExists(Rows(), quote) {
            Rollback(saved);
            return Some(NotFound);
          }
          var paid := quotes[quote].paid + payment.amount;
          quotes := quotes[quote := quotes[quote].(paid := paid)];
          if paid >= quotes[quote].amount {
            quotes := quotes[quote := quotes[quote].(status := QuoteStatus.Paid)];
          } else {
            quotes := quotes[quote := quotes[quote].(status := QuoteStatus.PartiallyPaid)];
          }
        }
      } else if event.Failure? {
        payments := payments[found.value := payment.(status := PaymentStatus.Failed)];
      }
      outcome := None;
    }
  }
}
