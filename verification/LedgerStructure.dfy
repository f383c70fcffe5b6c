/** What every ledger transaction keeps, whatever the run: references, ownership, prices and stock. */
module LedgerStructure {
  import opened Prelude
  import opened Inventory
  import opened Ledger

  /** Two payment rows never share a reference or an order, nor are both pending for one quote. */
  predicate Apart(p: Payment, r: Payment) {
    && p.reference != r.reference
    && (p.order.Some? ==> p.order != r.order)
    && (p.quote.Some? && p.quote == r.quote ==> !(p.status.Pending? && r.status.Pending?))
  }

  predicate PaymentsApart(payments: seq<Payment>) {
    forall i, j :: 0 <= i < |payments| && 0 <= j < |payments| && i != j ==> Apart(payments[i], payments[j])
  }

  /** A payment belongs to one order, at that order's total, or to one quote. */
  predicate PaymentOwned(p: Payment, orders: seq<Order>, quotes: seq<Quote>) {
    && (p.order.Some? <==> p.quote.None?)
    && (p.order.Some? ==> p.order.value < |orders| && p.amount == orders[p.order.value].total)
    && (p.quote.Some? ==> p.quote.value < |quotes| && p.amount >= 0)
  }

  predicate PaymentsOwned(db: Db) {
    forall i :: 0 <= i < |db.payments| ==> PaymentOwned(db.payments[i], db.orders, db.quotes)
  }

  predicate ItemPriced(item: Item, products: seq<Product>) {
    && Known(products, item.line.product)
    && item.line.quantity > 0
    && item.lineTotal == item.unitPrice * item.line.quantity
  }

  /** An order with items totals its item snapshots. */
  predicate OrderPriced(o: Order, products: seq<Product>) {
    && (forall k :: 0 <= k < |o.items| ==> ItemPriced(o.items[k], products))
    && (o.items != [] ==> o.total == Sum(o.items, LineTotal()))
    && o.total >= 0
  }

  predicate OrdersPriced(db: Db) {
    forall i :: 0 <= i < |db.orders| ==> OrderPriced(db.orders[i], db.products)
  }

  predicate OneOrderPerRequest(orders: seq<Order>) {
    forall i, j :: 0 <= i < j < |orders| ==> orders[i].request != orders[j].request
  }

  predicate StockNonNegative(products: seq<Product>) {
    forall i :: 0 <= i < |products| ==> products[i].stock >= 0
  }

  predicate WellFormed(db: Db) {
    && PaymentsApart(db.payments)
    && PaymentsOwned(db)
    && OrdersPriced(db)
    && OneOrderPerRequest(db.orders)
    && StockNonNegative(db.products)
  }

  /** The terms of the orders of `before` all survive in `after`: request, total and items. */
  predicate TermsKept(before: seq<Order>, after: seq<Order>) {
    && |before| <= |after|
    && forall i :: 0 <= i < |before| ==>
         after[i].request == before[i].request && after[i].total == before[i].total && after[i].items == before[i].items
  }

  lemma LinesPositive(db: Db, order: nat)
    requires WellFormed(db) && order < |db.orders|
    ensures Positive(LinesOf(db.orders[order].items))
  {
    assert OrderPriced(db.orders[order], db.products);
  }

  /** Depletion and restocking touch stock levels only and never drive them below zero. */
  lemma StockMoves(db: Db, order: nat)
    requires WellFormed(db) && order < |db.orders|
    ensures var lines := LinesOf(db.orders[order].items);
            && (Reduce(db.products, lines, db.alertRaises).Commit? ==>
                  var taken := Reduce(db.products, lines, db.alertRaises).state;
                  Shifted(db.products, taken, lines, -1) && StockNonNegative(taken))
            && (Restock(db.products, lines, db.alertRaises).Commit? ==>
                  var put := Restock(db.products, lines, db.alertRaises).state;
                  Shifted(db.products, put, lines, 1) && StockNonNegative(put))
  {
    var lines := LinesOf(db.orders[order].items);
    LinesPositive(db, order);
    ReduceExact(db.products, lines, db.alertRaises);
    if Reduce(db.products, lines, db.alertRaises).Commit? {
      var taken := Reduce(db.products, lines, db.alertRaises).state;
      forall pid | 0 <= pid < |taken| ensures taken[pid].stock >= 0 {
        UnrequestedOrCovered(db.products, lines, db.alertRaises, pid);
      }
    }
    if Restock(db.products, lines, db.alertRaises).Commit? {
      RestockExact(db.products, lines, db.alertRaises);
      forall pid ensures 0 <= Requested(lines, pid) { RequestedNonNegative(lines, pid); }
    }
  }

  lemma UnrequestedOrCovered(products: seq<Product>, lines: seq<Line>, alertRaises: bool, pid: int)
    requires Coverable(products, lines, alertRaises) && Known(products, pid) && products[pid].stock >= 0
    ensures Requested(lines, pid) <= products[pid].stock
  {
    if i :| 0 <= i < |lines| && lines[i].product == pid {
    } else {
      Unrequested(lines, pid);
    }
  }

  lemma {:induction false} Unrequested(lines: seq<Line>, pid: int)
    requires forall i :: 0 <= i < |lines| ==> lines[i].product != pid
    ensures Requested(lines, pid) == 0
  {
    if lines != [] {
      RequestedSplit(lines, pid);
      Unrequested(lines[..|lines| - 1], pid);
    }
  }

  /** Orders and products may change status and stock; prices and ownership then still stand. */
  lemma StatusAndStockKeep(db: Db, db': Db)
    requires WellFormed(db)
    requires TermsKept(db.orders, db'.orders) && |db'.orders| == |db.orders|
    requires |db'.products| >= |db.products| && StockNonNegative(db'.products)
    requires db'.payments == db.payments && |db'.quotes| >= |db.quotes|
    ensures WellFormed(db')
  {
    forall i | 0 <= i < |db'.orders| ensures OrderPriced(db'.orders[i], db'.products) {
      assert OrderPriced(db.orders[i], db.products);
      forall k | 0 <= k < |db'.orders[i].items| ensures ItemPriced(db'.orders[i].items[k], db'.products) {
        assert ItemPriced(db.orders[i].items[k], db.products);
      }
    }
    forall i | 0 <= i < |db'.payments| ensures PaymentOwned(db'.payments[i], db'.orders, db'.quotes) {
      assert PaymentOwned(db.payments[i], db.orders, db.quotes);
    }
  }

  /** Moving one payment row to a status other than pending disturbs nothing. */
  lemma PaymentStatusKeeps(db: Db, payment: nat, status: PaymentStatus)
    requires WellFormed(db) && payment < |db.payments| && !status.Pending?
    ensures WellFormed(SetPaymentStatus(db, payment, status))
  {
    var db' := SetPaymentStatus(db, payment, status);
    forall i, j | 0 <= i < |db'.payments| && 0 <= j < |db'.payments| && i != j
      ensures Apart(db'.payments[i], db'.payments[j])
    {
      assert Apart(db.payments[i], db.payments[j]);
    }
    forall i | 0 <= i < |db'.payments| ensures PaymentOwned(db'.payments[i], db'.orders, db'.quotes) {
      assert PaymentOwned(db.payments[i], db.orders, db.quotes);
    }
  }

  lemma {:induction false} PricedItems(products: seq<Product>, lines: seq<Line>)
    requires PriceLines(products, lines).Commit?
    ensures var items := PriceLines(products, lines).state;
            && |items| == |lines|
            && forall k :: 0 <= k < |items| ==>
                 ItemPriced(items[k], products) && items[k].line == lines[k] &&
                 items[k].unitPrice == products[lines[k].product].price
  {
    if lines != [] {
      PricedItems(products, lines[..|lines| - 1]);
    }
  }

  lemma CreateOrderKeeps(db: Db, request: int, lines: seq<Line>)
    requires WellFormed(db) && CreateOrderTx(db, request, lines).Commit?
    ensures WellFormed(CreateOrderTx(db, request, lines).state)
  {
    PricedItems(db.products, lines);
    AppendOrderKeeps(db, db.(orders := CreateOrderTx(db, request, lines).state.orders));
  }

  lemma AppendOrderKeeps(db: Db, db': Db)
    requires WellFormed(db)
    requires db' == db.(orders := db'.orders) && |db'.orders| == |db.orders| + 1
    requires db'.orders[..|db.orders|] == db.orders
    requires OrderPriced(db'.orders[|db.orders|], db.products)
    requires forall i :: 0 <= i < |db.orders| ==> db.orders[i].request != db'.orders[|db.orders|].request
    ensures WellFormed(db')
  {
    forall i | 0 <= i < |db.orders| ensures db'.orders[i] == db.orders[i] {
      assert db'.orders[..|db.orders|][i] == db.orders[i];
    }
    forall i | 0 <= i < |db'.payments| ensures PaymentOwned(db'.payments[i], db'.orders, db'.quotes) {
      assert PaymentOwned(db.payments[i], db.orders, db.quotes);
    }
  }

  /** A payment row added or reset by an upsert stays apart from all the others. */
  lemma UpsertOrderKeeps(db: Db, order: nat, reference: string, now: int)
    requires WellFormed(db) && order < |db.orders|
    requires UpsertOrderPayment(db.payments, order, db.orders[order].total, reference, now).Commit?
    ensures var payments := UpsertOrderPayment(db.payments, order, db.orders[order].total, reference, now).state;
            WellFormed(db.(payments := payments))
  {
    var payments := UpsertOrderPayment(db.payments, order, db.orders[order].total, reference, now).state;
    var db' := db.(payments := payments);
    forall i | 0 <= i < |db.payments| ensures PaymentOwned(db.payments[i], db.orders, db.quotes) {}
    forall i, j | 0 <= i < |payments| && 0 <= j < |payments| && i != j ensures Apart(payments[i], payments[j]) {
      if i < |db.payments| && j < |db.payments| {
        assert Apart(db.payments[i], db.payments[j]);
      }
    }
  }

  lemma UpsertQuoteKeeps(db: Db, quote: nat, amount: int, reference: string, now: int)
    requires WellFormed(db) && quote < |db.quotes| && amount >= 0
    requires UpsertQuotePayment(db.payments, quote, amount, reference, now).Commit?
    ensures var payments := UpsertQuotePayment(db.payments, quote, amount, reference, now).state;
            WellFormed(db.(payments := payments))
  {
    var payments := UpsertQuotePayment(db.payments, quote, amount, reference, now).state;
    forall i | 0 <= i < |db.payments| ensures PaymentOwned(db.payments[i], db.orders, db.quotes) {}
    forall i, j | 0 <= i < |payments| && 0 <= j < |payments| && i != j ensures Apart(payments[i], payments[j]) {
      if i < |db.payments| && j < |db.payments| {
        assert Apart(db.payments[i], db.payments[j]);
      }
    }
  }

  lemma ExpireKeeps(db: Db, now: int)
    requires WellFormed(db)
    ensures WellFormed(db.(payments := ExpirePayments(db.payments, now)))
  {
    var payments := ExpirePayments(db.payments, now);
    forall i, j | 0 <= i < |payments| && 0 <= j < |payments| && i != j ensures Apart(payments[i], payments[j]) {
      assert Apart(db.payments[i], db.payments[j]);
    }
    forall i | 0 <= i < |payments| ensures PaymentOwned(payments[i], db.orders, db.quotes) {
      assert PaymentOwned(db.payments[i], db.orders, db.quotes);
    }
  }

  lemma ProcessPaidKeeps(db: Db, order: int)
    requires WellFormed(db) && ProcessPaidTx(db, order).Commit?
    ensures WellFormed(ProcessPaidTx(db, order).state)
  {
    StockMoves(db, order);
    StatusAndStockKeep(db, ProcessPaidTx(db, order).state);
  }

  lemma CancelOrderKeeps(db: Db, order: Option<int>, reason: string)
    requires WellFormed(db) && CancelOrderTx(db, order, reason).Commit?
    ensures WellFormed(CancelOrderTx(db, order, reason).state)
  {
    StockMoves(db, order.value);
    StatusAndStockKeep(db, CancelOrderTx(db, order, reason).state);
  }

  lemma WebhookKeeps(db: Db, reference: string, event: ChargeEvent)
    requires WellFormed(db) && WebhookTx(db, reference, event).Commit?
    ensures WellFormed(WebhookTx(db, reference, event).state)
  {
    var i := FindFirst(db.payments, WithReference(reference)).value;
    if Settled(db.payments[i].status) || event.Unhandled? {
    } else if event.Failure? {
      PaymentStatusKeeps(db, i, PaymentStatus.Failed);
    } else {
      var row := db.payments[i];
      assert PaymentOwned(row, db.orders, db.quotes);
      PaymentStatusKeeps(db, i, PaymentStatus.Paid);
      var paid := SetPaymentStatus(db, i, PaymentStatus.Paid);
      if row.order.Some? {
        ProcessPaidKeeps(paid, row.order.value);
      } else {
        StatusAndStockKeep(paid, WebhookTx(db, reference, event).state);
      }
    }
  }

  lemma StoredKoboBounds(halfKobo: int, roundUp: bool)
    requires 0 < halfKobo
    ensures 0 <= StoredKobo(halfKobo, roundUp)
    ensures halfKobo - 1 <= 2 * StoredKobo(halfKobo, roundUp) <= halfKobo + 1
    ensures halfKobo % 2 == 0 ==> 2 * StoredKobo(halfKobo, roundUp) == halfKobo
  {
  }

  lemma InitializeKeeps(db: Db, c: Command)
    requires WellFormed(db) && Execute(db, c).Commit?
    requires c.InitializePayment? || c.InitializeQuotePayment?
    ensures WellFormed(Execute(db, c).state)
  {
    match c
    case InitializePayment(order, reference, now, up) =>
      UpsertOrderKeeps(db, order, reference, now);
      var payments := UpsertOrderPayment(db.payments, order, db.orders[order].total, reference, now).state;
      StatusAndStockKeep(db.(payments := payments), Execute(db, c).state);
    case InitializeQuotePayment(quote, plan, allowed, reference, now, roundUp, up) =>
      var due := PlanDue(db.quotes[quote], plan, allowed).state;
      StoredKoboBounds(due, roundUp);
      UpsertQuoteKeeps(db, quote, StoredKobo(due, roundUp), reference, now);
      var payments := UpsertQuotePayment(db.payments, quote, StoredKobo(due, roundUp), reference, now).state;
      StatusAndStockKeep(db.(payments := payments), Execute(db, c).state);
  }

  /** Every command keeps the structure of the ledger. */
  lemma StepKeepsWellFormed(db: Db, c: Command)
    requires WellFormed(db)
    ensures WellFormed(Step(db, c))
  {
    var r := Execute(db, c);
    if r.Commit? {
      var db' := r.state;
      match c {
        case CreateOrder(request, lines) => CreateOrderKeeps(db, request, lines);
        case CreateOrderFromQuote(_, _) => if db' != db { AppendOrderKeeps(db, db'); }
        case InitializePayment(_, _, _, _) => InitializeKeeps(db, c);
        case InitializeQuotePayment(_, _, _, _, _, _, _) => InitializeKeeps(db, c);
        case Expire(now) => ExpireKeeps(db, now);
        case CancelPayment(p) => PaymentStatusKeeps(db, p, PaymentStatus.Cancelled);
        case RefundPayment(p) =>
          PaymentStatusKeeps(db, p, PaymentStatus.Refunded);
          CancelOrderKeeps(SetPaymentStatus(db, p, PaymentStatus.Refunded), db.payments[p].order, REFUND_REASON);
        case EscalatePayment(p) => PaymentStatusKeeps(db, p, PaymentStatus.Escalated);
        case Webhook(reference, event) => WebhookKeeps(db, reference, event);
        case CancelOrder(order, reason) => CancelOrderKeeps(db, Some(order), reason);
        case FulfillOrder(_) => StatusAndStockKeep(db, db');
        case AdjustInventory(_, _) => StatusAndStockKeep(db, db');
        case UpdateThreshold(_, _) => StatusAndStockKeep(db, db');
        case CreateProduct(_, _, _) => StatusAndStockKeep(db, db');
        case UpdateProduct(_, _, _) => StatusAndStockKeep(db, db');
        case IssueQuote(_) => StatusAndStockKeep(db, db');
        case ReviewQuote(_, _) => StatusAndStockKeep(db, db');
      }
    }
  }

  lemma {:induction false} RunKeepsWellFormed(db: Db, commands: seq<Command>)
    requires WellFormed(db)
    ensures WellFormed(Run(db, commands))
  {
    if commands != [] {
      RunKeepsWellFormed(db, commands[..|commands| - 1]);
      StepKeepsWellFormed(Run(db, commands[..|commands| - 1]), commands[|commands| - 1]);
    }
  }

  lemma WebhookKeepsTerms(db: Db, reference: string, event: ChargeEvent)
    ensures var r := WebhookTx(db, reference, event);
            r.Commit? ==> TermsKept(db.orders, r.state.orders)
  {}

  lemma CancelKeepsTerms(db: Db, order: Option<int>, reason: string)
    ensures var r := CancelOrderTx(db, order, reason);
            r.Commit? ==> TermsKept(db.orders, r.state.orders)
  {}

  lemma InitializeKeepsTerms(db: Db, order: int, reference: string, now: int, providerUp: bool)
    ensures var r := InitializeForOrderTx(db, order, reference, now, providerUp);
            r.Commit? ==> TermsKept(db.orders, r.state.orders)
  {}

  lemma OrderCallKeepsTerms(db: Db, c: Command)
    requires c.CreateOrder? || c.CreateOrderFromQuote? || c.FulfillOrder?
    ensures TermsKept(db.orders, Step(db, c).orders)
  {}

  /** The calls that do not touch orders. */
  predicate SparesOrders(c: Command) {
    || c.InitializeQuotePayment? || c.Expire? || c.CancelPayment? || c.EscalatePayment? || c.AdjustInventory?
    || c.UpdateThreshold? || c.CreateProduct? || c.UpdateProduct? || c.IssueQuote? || c.ReviewQuote?
  }

  lemma OrdersSpared(db: Db, c: Command)
    requires SparesOrders(c)
    ensures Step(db, c).orders == db.orders
  {}

  lemma StepKeepsTerms(db: Db, c: Command)
    ensures TermsKept(db.orders, Step(db, c).orders)
  {
    if SparesOrders(c) {
      OrdersSpared(db, c);
    } else if c.CreateOrder? || c.CreateOrderFromQuote? || c.FulfillOrder? {
      OrderCallKeepsTerms(db, c);
    } else {
      match c
      case Webhook(reference, event) => WebhookKeepsTerms(db, reference, event);
      case RefundPayment(p) =>
        if PaymentExists(db, p) {
          CancelKeepsTerms(SetPaymentStatus(db, p, PaymentStatus.Refunded), db.payments[p].order, REFUND_REASON);
        }
      case CancelOrder(order, reason) => CancelKeepsTerms(db, Some(order), reason);
      case InitializePayment(order, reference, now, up) => InitializeKeepsTerms(db, order, reference, now, up);
    }
  }

  /** The request, total and item snapshots of an order never change again. */
  lemma {:induction false} TermsFrozen(db: Db, commands: seq<Command>)
    ensures TermsKept(db.orders, Run(db, commands).orders)
  {
    if commands != [] {
      var before := Run(db, commands[..|commands| - 1]);
      TermsFrozen(db, commands[..|commands| - 1]);
      StepKeepsTerms(before, commands[|commands| - 1]);
    }
  }

  /** An order made by `create_order` is priced from the catalogue of that moment, and whatever runs
      afterwards, its total stays the sum of its item snapshots. */
  lemma OrderTotalForever(db: Db, request: int, lines: seq<Line>, commands: seq<Command>)
    requires CreateOrderTx(db, request, lines).Commit?
    ensures var o := Run(CreateOrderTx(db, request, lines).state, commands).orders;
            var n := |db.orders|;
            && n < |o|
            && o[n].request == request
            && LinesOf(o[n].items) == lines
            && o[n].total == Sum(o[n].items, LineTotal())
            && forall k :: 0 <= k < |lines| ==>
                 && Known(db.products, lines[k].product)
                 && o[n].items[k].lineTotal == db.products[lines[k].product].price * lines[k].quantity
  {
    var db' := CreateOrderTx(db, request, lines).state;
    PricedItems(db.products, lines);
    TermsFrozen(db', commands);
    var row := Run(db', commands).orders[|db.orders|];
    assert row.items == db'.orders[|db.orders|].items;
    assert LinesOf(row.items) == lines;
    forall k | 0 <= k < |lines| ensures
      && Known(db.products, lines[k].product)
      && row.items[k].lineTotal == db.products[lines[k].product].price * lines[k].quantity
    {
      assert ItemPriced(row.items[k], db.products);
    }
  }
}
