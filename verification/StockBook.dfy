/** Where every unit of stock is: on the shelf, held by an order, shipped, or unaccounted for. */
module StockBook {
  import opened Prelude
  import opened Inventory
  import opened Ledger
  import opened LedgerStructure
  import opened OrderBook

  /** What an order asks of a product. */
  function OrderQuantity(o: Order, pid: int): int { Requested(LinesOf(o.items), pid) }

  /** What paid and fulfilled orders hold of a product. */
  function HoldingOf(pid: int): Order -> int {
    (o: Order) => if Honoured(o.status) then OrderQuantity(o, pid) else 0
  }

  function Held(db: Db, pid: int): int { Sum(db.orders, HoldingOf(pid)) }

  /** The order a committed step moves, if it moves one. */
  function OrderMoved(db: Db, c: Command): Option<nat> {
    match c
    case InitializePayment(order, _, _, _) => if OrderExists(db, order) then Some(order) else None
    case CancelOrder(order, _) => if OrderExists(db, order) then Some(order) else None
    case FulfillOrder(order) => if OrderExists(db, order) then Some(order) else None
    case RefundPayment(payment) => if PaymentExists(db, payment) then db.payments[payment].order else None
    case Webhook(reference, event) =>
      var found := FindFirst(db.payments, WithReference(reference));
      if event.Success? && found.Some? && !Settled(db.payments[found.value].status)
      then db.payments[found.value].order else None
    case _ => None
  }

  /** Manual adjustments and opening stock. */
  function Adjusted(db: Db, c: Command, pid: int): int {
    if Execute(db, c).Abort? then 0
    else
      match c
      case AdjustInventory(product, amount) => if product == pid then amount else 0
      case CreateProduct(_, stock, _) => if pid == |db.products| then stock else 0
      case _ => 0
  }

  /** Goods of a fulfilled order that is then cancelled: they left the shelf and are not put back. */
  function Shipped(db: Db, c: Command, pid: int): int {
    var moved := OrderMoved(db, c);
    if (c.CancelOrder? || c.RefundPayment?) && Execute(db, c).Commit? && moved.Some? && OrderExists(db, moved.value)
       && db.orders[moved.value].status.Fulfilled?
    then OrderQuantity(db.orders[moved.value], pid) else 0
  }

  /** Goods an honoured order stops holding because its payment is initialised again. */
  function Dropped(db: Db, c: Command, pid: int): int {
    var moved := OrderMoved(db, c);
    if c.InitializePayment? && Execute(db, c).Commit? && moved.Some? && OrderExists(db, moved.value)
       && Honoured(db.orders[moved.value].status)
    then OrderQuantity(db.orders[moved.value], pid) else 0
  }

  /** A committed charge pays an order whose lines the shelf cannot cover. */
  predicate Shortfall(db: Db, c: Command) {
    var moved := OrderMoved(db, c);
    && c.Webhook? && Execute(db, c).Commit? && moved.Some? && OrderExists(db, moved.value)
    && !Coverable(db.products, LinesOf(db.orders[moved.value].items), db.alertRaises)
  }

  /** Goods a paid order holds although the shelf could not give them. */
  function Missing(db: Db, c: Command, pid: int): int {
    if Shortfall(db, c) then OrderQuantity(db.orders[OrderMoved(db, c).value], pid) else 0
  }

  lemma HeldAfterStatus(db: Db, order: nat, status: OrderStatus, pid: int)
    requires order < |db.orders|
    ensures Held(SetOrderStatus(db, order, status), pid) ==
            Held(db, pid) - HoldingOf(pid)(db.orders[order])
            + (if Honoured(status) then OrderQuantity(db.orders[order], pid) else 0)
  {
    SumUpdate(db.orders, order, db.orders[order].(status := status), HoldingOf(pid));
  }

  lemma HeldAfterNewOrder(db: Db, o: Order, pid: int)
    requires !Honoured(o.status)
    ensures Sum(db.orders + [o], HoldingOf(pid)) == Held(db, pid)
  {
    SumAppend(db.orders, o, HoldingOf(pid));
  }

  /** The balance of one product over one step. */
  predicate Accounted(db: Db, c: Command, pid: int) {
    var db' := Step(db, c);
    StockOf(db'.products, pid) + Held(db', pid) + Shipped(db, c, pid) + Dropped(db, c, pid) ==
    StockOf(db.products, pid) + Held(db, pid) + Adjusted(db, c, pid) + Missing(db, c, pid)
  }

  lemma CancelAccounted(db: Db, order: Option<int>, reason: string, pid: int)
    requires WellFormed(db) && CancelOrderTx(db, order, reason).Commit?
    ensures var db' := CancelOrderTx(db, order, reason).state;
            var row := db.orders[order.value];
            StockOf(db'.products, pid) + Held(db', pid)
            + (if row.status.Fulfilled? then OrderQuantity(row, pid) else 0) ==
            StockOf(db.products, pid) + Held(db, pid)
  {
    StockMoves(db, order.value);
    HeldAfterStatus(db, order.value, OrderStatus.Cancelled, pid);
    RestockedUnknown(db, order.value, pid);
  }

  /** Items name known products only, so they ask nothing of a product that is not in the table. */
  lemma RestockedUnknown(db: Db, order: nat, pid: int)
    requires WellFormed(db) && order < |db.orders|
    ensures !Known(db.products, pid) ==> OrderQuantity(db.orders[order], pid) == 0
  {
    assert OrderPriced(db.orders[order], db.products);
    if !Known(db.products, pid) {
      var lines := LinesOf(db.orders[order].items);
      forall i | 0 <= i < |lines| ensures lines[i].product != pid {
        assert ItemPriced(db.orders[order].items[i], db.products);
      }
      Unrequested(lines, pid);
    }
  }

  lemma ProcessPaidAccounted(db: Db, order: int, pid: int)
    requires WellFormed(db) && ProcessPaidTx(db, order).Commit?
    ensures var db' := ProcessPaidTx(db, order).state;
            StockOf(db'.products, pid) + Held(db', pid) ==
            StockOf(db.products, pid) + Held(db, pid)
            + (if !Coverable(db.products, LinesOf(db.orders[order].items), db.alertRaises)
               then OrderQuantity(db.orders[order], pid) else 0)
  {
    StockMoves(db, order);
    LinesPositive(db, order);
    ReduceExact(db.products, LinesOf(db.orders[order].items), db.alertRaises);
    HeldAfterStatus(db, order, OrderStatus.Paid, pid);
    RestockedUnknown(db, order, pid);
  }

  lemma WebhookAccounted(db: Db, reference: string, event: ChargeEvent, pid: int)
    requires WellFormed(db) && WebhookTx(db, reference, event).Commit?
    ensures Accounted(db, Webhook(reference, event), pid)
  {
    var c := Webhook(reference, event);
    var moved := OrderMoved(db, c);
    var i := FindFirst(db.payments, WithReference(reference)).value;
    assert PaymentOwned(db.payments[i], db.orders, db.quotes);
    if moved.Some? {
      PaymentStatusKeeps(db, i, PaymentStatus.Paid);
      ProcessPaidAccounted(SetPaymentStatus(db, i, PaymentStatus.Paid), moved.value, pid);
    }
  }

  lemma RefundAccounted(db: Db, payment: int, pid: int)
    requires WellFormed(db) && RefundPaymentTx(db, payment).Commit?
    ensures Accounted(db, RefundPayment(payment), pid)
  {
    PaymentStatusKeeps(db, payment, PaymentStatus.Refunded);
    CancelAccounted(SetPaymentStatus(db, payment, PaymentStatus.Refunded), db.payments[payment].order, REFUND_REASON,
                    pid);
  }

  lemma CreateAccounted(db: Db, c: Command, pid: int)
    requires c.CreateOrder? || c.CreateOrderFromQuote?
    ensures Accounted(db, c, pid)
  {
    var db' := Step(db, c);
    if db' != db {
      HeldAfterNewOrder(db, db'.orders[|db.orders|], pid);
    }
  }

  lemma InitialiseAccounted(db: Db, c: Command, pid: int)
    requires c.InitializePayment? && Execute(db, c).Commit?
    ensures Accounted(db, c, pid)
  {
    HeldAfterStatus(db, c.order, OrderStatus.PendingPayment, pid);
    assert Step(db, c).orders == SetOrderStatus(db, c.order, OrderStatus.PendingPayment).orders;
  }

  lemma FulfillAccounted(db: Db, order: int, pid: int)
    requires FulfillOrderTx(db, order).Commit?
    ensures Accounted(db, FulfillOrder(order), pid)
  {
    HeldAfterStatus(db, order, OrderStatus.Fulfilled, pid);
  }

  lemma CatalogueAccounted(db: Db, c: Command, pid: int)
    requires c.AdjustInventory? || c.UpdateThreshold? || c.CreateProduct? || c.UpdateProduct?
    ensures Accounted(db, c, pid)
  {
  }

  lemma QuietAccounted(db: Db, c: Command, pid: int)
    requires c.InitializeQuotePayment? || c.Expire? || c.CancelPayment? || c.EscalatePayment? ||
             c.IssueQuote? || c.ReviewQuote?
    ensures Accounted(db, c, pid)
  {
  }

  /** The exact stock law of a step: nothing moves a product except these five flows. */
  lemma StepAccounted(db: Db, c: Command, pid: int)
    requires WellFormed(db)
    ensures Accounted(db, c, pid)
  {
    if Execute(db, c).Commit? {
      match c {
        case CreateOrder(_, _) => CreateAccounted(db, c, pid);
        case CreateOrderFromQuote(_, _) => CreateAccounted(db, c, pid);
        case InitializePayment(_, _, _, _) => InitialiseAccounted(db, c, pid);
        case RefundPayment(payment) => RefundAccounted(db, payment, pid);
        case Webhook(reference, event) => WebhookAccounted(db, reference, event, pid);
        case CancelOrder(order, reason) => CancelAccounted(db, Some(order), reason, pid);
        case FulfillOrder(order) => FulfillAccounted(db, order, pid);
        case AdjustInventory(_, _) => CatalogueAccounted(db, c, pid);
        case UpdateThreshold(_, _) => CatalogueAccounted(db, c, pid);
        case CreateProduct(_, _, _) => CatalogueAccounted(db, c, pid);
        case UpdateProduct(_, _, _) => CatalogueAccounted(db, c, pid);
        case _ => QuietAccounted(db, c, pid);
      }
    }
  }

  // ---------------------------------------------------------------- whole runs

  datatype Flow = Flow(adjusted: int, shipped: int, dropped: int, missing: int)

  function StepFlow(db: Db, c: Command, pid: int): Flow {
    Flow(Adjusted(db, c, pid), Shipped(db, c, pid), Dropped(db, c, pid), Missing(db, c, pid))
  }

  function RunFlow(db: Db, commands: seq<Command>, pid: int): Flow {
    if commands == [] then Flow(0, 0, 0, 0)
    else
      var f := RunFlow(db, commands[..|commands| - 1], pid);
      var g := StepFlow(Run(db, commands[..|commands| - 1]), commands[|commands| - 1], pid);
      Flow(f.adjusted + g.adjusted, f.shipped + g.shipped, f.dropped + g.dropped, f.missing + g.missing)
  }

  /** The stock law over any run at all. */
  lemma {:induction false} RunAccounted(db: Db, commands: seq<Command>, pid: int)
    requires WellFormed(db)
    ensures var db' := Run(db, commands);
            var f := RunFlow(db, commands, pid);
            StockOf(db'.products, pid) + Held(db', pid) + f.shipped + f.dropped ==
            StockOf(db.products, pid) + Held(db, pid) + f.adjusted + f.missing
  {
    if commands != [] {
      var n := |commands| - 1;
      RunAccounted(db, commands[..n], pid);
      RunKeepsWellFormed(db, commands[..n]);
      StepAccounted(Run(db, commands[..n]), commands[n], pid);
    }
  }

  /** The step neither hits the shortfall branch nor initialises the payment of an honoured order again. */
  predicate Leakless(db: Db, c: Command) {
    && !Shortfall(db, c)
    && (c.InitializePayment? && OrderExists(db, c.order) && Honoured(db.orders[c.order].status) ==>
          Execute(db, c).Abort?)
  }

  /** Shelf stock plus what paid, fulfilled and shipped-then-cancelled orders took moves only by adjustment. */
  lemma {:induction false} StockConserved(db: Db, commands: seq<Command>, pid: int)
    requires WellFormed(db)
    requires forall n :: 0 <= n < |commands| ==> Leakless(Run(db, commands[..n]), commands[n])
    ensures var db' := Run(db, commands);
            var f := RunFlow(db, commands, pid);
            StockOf(db'.products, pid) + Held(db', pid) + f.shipped ==
            StockOf(db.products, pid) + Held(db, pid) + f.adjusted
  {
    RunAccounted(db, commands, pid);
    LeaklessFlow(db, commands, pid);
  }

  lemma {:induction false} LeaklessFlow(db: Db, commands: seq<Command>, pid: int)
    requires forall n :: 0 <= n < |commands| ==> Leakless(Run(db, commands[..n]), commands[n])
    ensures RunFlow(db, commands, pid).dropped == 0 && RunFlow(db, commands, pid).missing == 0
  {
    if commands != [] {
      var n := |commands| - 1;
      forall k | 0 <= k < n ensures Leakless(Run(db, commands[..n][..k]), commands[..n][k]) {
        assert commands[..n][..k] == commands[..k];
        assert Leakless(Run(db, commands[..k]), commands[k]);
      }
      LeaklessFlow(db, commands[..n], pid);
      assert Leakless(Run(db, commands[..n]), commands[n]);
    }
  }

  /** The lines of the order that a charge for this reference pays. */
  function LinesPaid(db: Db, reference: string): seq<Line> {
    match FindFirst(db.payments, WithReference(reference))
    case None => []
    case Some(i) =>
      if db.payments[i].order.Some? && OrderExists(db, db.payments[i].order.value)
      then LinesOf(db.orders[db.payments[i].order.value].items) else []
  }

  /** A committed charge for an open order payment: the order is paid and its lines taken, if they are covered. */
  lemma ChargePays(db: Db, reference: string) returns (i: nat, order: nat)
    requires WellFormed(db) && WebhookTx(db, reference, Success).Commit?
    requires OrderMoved(db, Webhook(reference, Success)).Some?
    ensures FindFirst(db.payments, WithReference(reference)) == Some(i) && db.payments[i].order == Some(order)
    ensures order < |db.orders| && LinesPaid(db, reference) == LinesOf(db.orders[order].items)
    ensures Positive(LinesPaid(db, reference)) && NoNegativeStock(db.products, LinesPaid(db, reference))
    ensures var paid := WebhookTx(db, reference, Success).state;
            var lines := LinesPaid(db, reference);
            && i < |paid.payments| && paid.payments[i].status.Paid? && paid.payments[i].order == Some(order)
            && order < |paid.orders| && paid.orders[order].status.Paid? && LinesOf(paid.orders[order].items) == lines
            && paid.alertRaises == db.alertRaises
            && (Coverable(db.products, lines, db.alertRaises) ==>
                  Reduce(db.products, lines, db.alertRaises) == Commit(paid.products))
            && (!Coverable(db.products, lines, db.alertRaises) ==> paid.products == db.products && lines != [])
  {
    i := FindFirst(db.payments, WithReference(reference)).value;
    assert PaymentOwned(db.payments[i], db.orders, db.quotes);
    order := db.payments[i].order.value;
    LinesPositive(db, order);
    ReduceExact(db.products, LinesPaid(db, reference), db.alertRaises);
  }

  lemma RefundIsRestock(db: Db, payment: nat, order: nat)
    requires payment < |db.payments| && db.payments[payment].status.Paid? && db.payments[payment].order == Some(order)
    requires order < |db.orders| && db.orders[order].status.Paid?
    ensures var refund := RefundPaymentTx(db, payment);
            var restock := Restock(db.products, LinesOf(db.orders[order].items), db.alertRaises);
            && (refund.Commit? <==> restock.Commit?)
            && (refund.Commit? ==> refund.state.products == restock.state)
  {}

  /** Paying an order and then refunding it. If the shelf covers the order, the refund commits and restores every
      product. If it does not, nothing was taken: the refund commits exactly when the lines can be put on the
      shelf clear of a failing alert, and then it adds goods that never left it. */
  lemma PayThenRefundExact(db: Db, reference: string)
    requires WellFormed(db) && WebhookTx(db, reference, Success).Commit?
    requires OrderMoved(db, Webhook(reference, Success)).Some?
    ensures var paid := WebhookTx(db, reference, Success).state;
            var refund := RefundPaymentTx(paid, FindFirst(db.payments, WithReference(reference)).value);
            var lines := LinesPaid(db, reference);
            if Coverable(db.products, lines, db.alertRaises)
            then refund.Commit? && refund.state.products == db.products
            else
              && paid.products == db.products
              && (refund.Commit? <==> Restockable(db.products, lines, db.alertRaises))
              && (refund.Commit? ==>
                    refund.state.products != db.products && Shifted(db.products, refund.state.products, lines, 1))
  {
    var paid := WebhookTx(db, reference, Success).state;
    var lines := LinesPaid(db, reference);
    var i, order := ChargePays(db, reference);
    RefundIsRestock(paid, i, order);
    if Coverable(db.products, lines, db.alertRaises) {
      RestockUndoesReduce(db.products, lines, db.alertRaises);
    } else {
      RestockCommitsExactly(db.products, lines, db.alertRaises);
      if Restock(db.products, lines, db.alertRaises).Commit? {
        RestockExact(db.products, lines, db.alertRaises);
        RequestedNonNegative(lines, lines[0].product);
        assert Known(db.products, lines[0].product);
      }
    }
  }

  /** A basket that repeats a product can be accepted although the shelf can never supply it. */
  lemma AcceptedButNotSuppliable(request: int, price: nat)
    ensures var db := Db([Product(price, 1, 0, false)], [], [], [], false);
            var lines := [Line(0, 1), Line(0, 1)];
            && CreateOrderTx(db, request, lines).Commit?
            && Reduce(db.products, lines, false).Abort?
  {
    var products := [Product(price, 1, 0, false)];
    var lines := [Line(0, 1), Line(0, 1)];
    PriceLinesExact(products, lines);
    PricedItems(products, lines);
    var items := PriceLines(products, lines).state;
    forall i | 0 <= i < |items| ensures 0 <= LineTotal()(items[i]) {
      assert ItemPriced(items[i], products);
    }
    SumNonNegative(items, LineTotal());
    ReduceExact(products, lines, false);
    RequestedSplit(lines, 0);
    assert lines[..1] == [Line(0, 1)];
    RequestedSplit([Line(0, 1)], 0);
    assert lines[0].product == 0;
  }
}
