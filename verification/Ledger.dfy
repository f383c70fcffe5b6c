/** Orders, payments, quotes and stock as one database, and the transactions that move them
    (OrderService, PaymentService, WebhookService). Row ids are row numbers; money is integer kobo. */
module Ledger {
  import opened Prelude
  import opened Inventory

  datatype PaymentStatus = Pending | Paid | Failed | Cancelled | Refunded | Escalated
  datatype OrderStatus = Created | PendingPayment | Paid | Fulfilled | Cancelled
  datatype QuoteStatus = Draft | Issued | Approved | Rejected | Expired | Superseded | PartiallyPaid | Paid
  datatype Plan = Full | FiftyFifty | Unrecognised
  datatype ChargeEvent = Success | Failure | Unhandled

  datatype Item = Item(line: Line, unitPrice: int, lineTotal: int)
  datatype Order = Order(request: int, status: OrderStatus, total: int, items: seq<Item>)
  datatype Payment = Payment(order: Option<nat>, quote: Option<nat>, reference: string, amount: int,
                             status: PaymentStatus, createdAt: int)
  datatype Quote = Quote(amount: int, paid: int, status: QuoteStatus, plan: Option<Plan>)

  datatype Db = Db(products: seq<Product>, orders: seq<Order>, payments: seq<Payment>, quotes: seq<Quote>,
                   alertRaises: bool)

  const REFUND_REASON := "Payment was refunded"
  const EXPIRY: int := 24 * HOUR

  function LinesOf(items: seq<Item>): (lines: seq<Line>)
    ensures |lines| == |items|
    ensures forall i :: 0 <= i < |items| ==> lines[i] == items[i].line
  {
    seq(|items|, i requires 0 <= i < |items| => items[i].line)
  }

  function LineTotal(): Item -> int { (item: Item) => item.lineTotal }

  function ForRequest(request: int): Order -> bool { (o: Order) => o.request == request }
  function ForOrder(order: int): Payment -> bool { (p: Payment) => p.order.Some? && p.order.value == order }
  function WithReference(reference: string): Payment -> bool { (p: Payment) => p.reference == reference }
  function PendingFor(quote: int): Payment -> bool {
    (p: Payment) => p.quote.Some? && p.quote.value == quote && p.status.Pending?
  }

  predicate OrderExists(db: Db, order: int) { 0 <= order < |db.orders| }
  predicate PaymentExists(db: Db, payment: int) { 0 <= payment < |db.payments| }
  predicate QuoteExists(db: Db, quote: int) { 0 <= quote < |db.quotes| }

  // ---------------------------------------------------------------- orders

  /** One line of a new order, priced from the catalogue. The stock test looks at this line alone. */
  function PriceLine(products: seq<Product>, line: Line): Tx<Item> {
    if !Known(products, line.product) then Abort(Invalid)
    else
      var product := products[line.product];
      if product.archived then Abort(Invalid)
      else if line.quantity <= 0 then Abort(Invalid)
      else if product.stock < line.quantity then Abort(Invalid)
      else Commit(Item(line, product.price, product.price * line.quantity))
  }

  function PriceLines(products: seq<Product>, lines: seq<Line>): Tx<seq<Item>> {
    if lines == [] then Commit([])
    else
      match PriceLines(products, lines[..|lines| - 1])
      case Abort(e) => Abort(e)
      case Commit(items) =>
        match PriceLine(products, lines[|lines| - 1])
        case Abort(e) => Abort(e)
        case Commit(item) => Commit(items + [item])
  }

  lemma {:induction false} PriceLinesStops(products: seq<Product>, lines: seq<Line>, k: nat)
    requires k <= |lines| && PriceLines(products, lines[..k]).Abort?
    ensures PriceLines(products, lines) == PriceLines(products, lines[..k])
  {
    if k == |lines| {
      assert lines[..k] == lines;
    } else {
      assert lines[..|lines| - 1][..k] == lines[..k];
      PriceLinesStops(products, lines[..|lines| - 1], k);
    }
  }

  /** A basket is accepted exactly when each line is fine on its own; repeats are not added up. */
  lemma {:induction false} PriceLinesExact(products: seq<Product>, lines: seq<Line>)
    ensures PriceLines(products, lines).Commit? <==>
            forall i :: 0 <= i < |lines| ==>
              && Known(products, lines[i].product)
              && !products[lines[i].product].archived
              && 0 < lines[i].quantity <= products[lines[i].product].stock
  {
    if lines != [] {
      var init := lines[..|lines| - 1];
      PriceLinesExact(products, init);
      assert forall i :: 0 <= i < |init| ==> init[i] == lines[i];
    }
  }

  function CreateOrderTx(db: Db, request: int, lines: seq<Line>): Tx<Db> {
    if FindFirst(db.orders, ForRequest(request)).Some? then Abort(Invalid)
    else
      match PriceLines(db.products, lines)
      case Abort(e) => Abort(e)
      case Commit(items) =>
        var total := Sum(items, LineTotal());
        if total < 0 then Abort(Conflict)
        else Commit(db.(orders := db.orders + [Order(request, OrderStatus.Created, total, items)]))
  }

  function CreateOrderFromQuoteTx(db: Db, request: int, amount: int): Tx<Db> {
    if FindFirst(db.orders, ForRequest(request)).Some? then Commit(db)
    else if amount < 0 then Abort(Conflict)
    else Commit(db.(orders := db.orders + [Order(request, OrderStatus.PendingPayment, amount, [])]))
  }

  function SetOrderStatus(db: Db, order: nat, status: OrderStatus): Db
    requires order < |db.orders|
  {
    db.(orders := db.orders[order := db.orders[order].(status := status)])
  }

  function SetPaymentStatus(db: Db, payment: nat, status: PaymentStatus): Db
    requires payment < |db.payments|
  {
    db.(payments := db.payments[payment := db.payments[payment].(status := status)])
  }

  function RequirePaymentTx(db: Db, order: int): Tx<Db> {
    if !OrderExists(db, order) then Abort(NotFound)
    else Commit(SetOrderStatus(db, order, OrderStatus.PendingPayment))
  }

  predicate Payable(status: OrderStatus) { status.PendingPayment? || status.Created? }

  /** Marks an order paid and takes its items from stock. Depletion is a nested savepoint: when it is
      refused the order stays paid and stock stays put; when the alert raises, everything rolls back. */
  function ProcessPaidTx(db: Db, order: int): Tx<Db> {
    if !OrderExists(db, order) then Abort(NotFound)
    else if !Payable(db.orders[order].status) then Abort(Invalid)
    else
      var marked := SetOrderStatus(db, order, OrderStatus.Paid);
      match Reduce(db.products, LinesOf(db.orders[order].items), db.alertRaises)
      case Commit(products) => Commit(marked.(products := products))
      case Abort(e) => if e.Crashed? then Abort(Crashed) else Commit(marked)
  }

  function CancelOrderTx(db: Db, order: Option<int>, reason: string): Tx<Db> {
    if order.None? || !OrderExists(db, order.value) then Abort(NotFound)
    else
      var row := db.orders[order.value];
      if row.status.Paid? && reason != REFUND_REASON then Abort(Invalid)
      else
        var marked := SetOrderStatus(db, order.value, OrderStatus.Cancelled);
        if !row.status.Paid? then Commit(marked)
        else
          match Restock(db.products, LinesOf(row.items), db.alertRaises)
          case Abort(e) => Abort(e)
          case Commit(products) => Commit(marked.(products := products))
  }

  function FulfillOrderTx(db: Db, order: int): Tx<Db> {
    if !OrderExists(db, order) then Abort(NotFound)
    else if db.orders[order].status.Fulfilled? then Commit(db)
    else if !db.orders[order].status.Paid? then Abort(Invalid)
    else Commit(SetOrderStatus(db, order, OrderStatus.Fulfilled))
  }

  // ---------------------------------------------------------------- payments

  predicate ReferenceTaken(payments: seq<Payment>, reference: string, except: int) {
    exists i :: 0 <= i < |payments| && i != except && payments[i].reference == reference
  }

  /** Adds or rewrites the order's payment row; the reference column is unique. */
  function UpsertOrderPayment(payments: seq<Payment>, order: nat, amount: int, reference: string, now: int)
    : Tx<seq<Payment>>
  {
    match FindFirst(payments, ForOrder(order))
    case Some(i) =>
      if ReferenceTaken(payments, reference, i) then Abort(Conflict)
      else Commit(payments[i := payments[i].(reference := reference, status := PaymentStatus.Pending)])
    case None =>
      if ReferenceTaken(payments, reference, -1) then Abort(Conflict)
      else Commit(payments + [Payment(Some(order), None, reference, amount, PaymentStatus.Pending, now)])
  }

  function InitializePaymentTx(db: Db, order: nat, amount: int, reference: string, now: int, providerUp: bool)
    : Tx<Db>
  {
    match UpsertOrderPayment(db.payments, order, amount, reference, now)
    case Abort(e) => Abort(e)
    case Commit(payments) =>
      match RequirePaymentTx(db.(payments := payments), order)
      case Abort(e) => Abort(e)
      case Commit(required) => if providerUp then Commit(required) else Abort(ProviderFailed)
  }

  /** The payment API: the amount is the order's total. */
  function InitializeForOrderTx(db: Db, order: int, reference: string, now: int, providerUp: bool): Tx<Db> {
    if !OrderExists(db, order) then Abort(NotFound)
    else InitializePaymentTx(db, order, db.orders[order].total, reference, now, providerUp)
  }

  /** What the plan asks for, in half kobo so that half of an odd amount is exact. */
  function PlanDue(quote: Quote, plan: Plan, balanceAllowed: bool): Tx<int> {
    match plan
    case Full => Commit(2 * (quote.amount - quote.paid))
    case FiftyFifty =>
      if 2 * quote.paid >= quote.amount then
        if !balanceAllowed then Abort(Invalid) else Commit(2 * (quote.amount - quote.paid))
      else Commit(quote.amount)
    case Unrecognised => Abort(Invalid)
  }

  /** The two-decimal amount column keeps whole kobo; half a kobo goes up or down with the store. */
  function StoredKobo(halfKobo: int, roundUp: bool): int {
    if halfKobo % 2 == 0 then halfKobo / 2
    else if roundUp then (halfKobo + 1) / 2
    else (halfKobo - 1) / 2
  }

  function UpsertQuotePayment(payments: seq<Payment>, quote: nat, amount: int, reference: string, now: int)
    : Tx<seq<Payment>>
  {
    match FindFirst(payments, PendingFor(quote))
    case Some(i) =>
      if ReferenceTaken(payments, reference, i) then Abort(Conflict)
      else Commit(payments[i := payments[i].(reference := reference, amount := amount)])
    case None =>
      if ReferenceTaken(payments, reference, -1) then Abort(Conflict)
      else Commit(payments + [Payment(None, Some(quote), reference, amount, PaymentStatus.Pending, now)])
  }

  function InitializeQuotePaymentTx(db: Db, quote: int, plan: Plan, balanceAllowed: bool, reference: string,
                                    now: int, roundUp: bool, providerUp: bool): Tx<Db>
  {
    if !QuoteExists(db, quote) then Abort(NotFound)
    else
      match PlanDue(db.quotes[quote], plan, balanceAllowed)
      case Abort(e) => Abort(e)
      case Commit(due) =>
        if due <= 0 then Abort(Invalid)
        else
          var quotes := db.quotes[quote := db.quotes[quote].(plan := Some(plan))];
          match UpsertQuotePayment(db.payments, quote, StoredKobo(due, roundUp), reference, now)
          case Abort(e) => Abort(e)
          case Commit(payments) =>
            if providerUp then Commit(db.(quotes := quotes, payments := payments)) else Abort(ProviderFailed)
  }

  predicate Overdue(payment: Payment, now: int) {
    (payment.status.Pending? || payment.status.Failed?) && payment.createdAt <= now - EXPIRY
  }

  function ExpireOne(payment: Payment, now: int): Payment {
    if Overdue(payment, now) then payment.(status := PaymentStatus.Cancelled) else payment
  }

  function ExpirePayments(payments: seq<Payment>, now: int): (expired: seq<Payment>)
    ensures |expired| == |payments|
    ensures forall i :: 0 <= i < |payments| ==> expired[i] == ExpireOne(payments[i], now)
  {
    seq(|payments|, i requires 0 <= i < |payments| => ExpireOne(payments[i], now))
  }

  /** The service itself; the payment API refuses a paid payment before calling it. */
  function CancelPaymentTx(db: Db, payment: int): Tx<Db> {
    if !PaymentExists(db, payment) then Abort(NotFound)
    else Commit(SetPaymentStatus(db, payment, PaymentStatus.Cancelled))
  }

  function CancelPaymentRequestTx(db: Db, payment: int): Tx<Db> {
    if PaymentExists(db, payment) && db.payments[payment].status.Paid? then Abort(Denied)
    else CancelPaymentTx(db, payment)
  }

  function RefundPaymentTx(db: Db, payment: int): Tx<Db> {
    if !PaymentExists(db, payment) then Abort(NotFound)
    else if !db.payments[payment].status.Paid? then Abort(Invalid)
    else CancelOrderTx(SetPaymentStatus(db, payment, PaymentStatus.Refunded), db.payments[payment].order, REFUND_REASON)
  }

  function EscalatePaymentTx(db: Db, payment: int): Tx<Db> {
    if !PaymentExists(db, payment) then Abort(NotFound)
    else Commit(SetPaymentStatus(db, payment, PaymentStatus.Escalated))
  }

  // ---------------------------------------------------------------- webhook

  function Credited(quote: Quote, amount: int): Quote {
    var paid := quote.paid + amount;
    quote.(paid := paid, status := if paid >= quote.amount then QuoteStatus.Paid else QuoteStatus.PartiallyPaid)
  }

  function CreditQuoteTx(db: Db, quote: int, amount: int): Tx<Db> {
    if !QuoteExists(db, quote) then Abort(NotFound)
    else Commit(db.(quotes := db.quotes[quote := Credited(db.quotes[quote], amount)]))
  }

  predicate Settled(status: PaymentStatus) { status.Paid? || status.Cancelled? }

  function ChargeSucceededTx(db: Db, payment: nat): Tx<Db>
    requires payment < |db.payments|
  {
    var row := db.payments[payment];
    var paid := SetPaymentStatus(db, payment, PaymentStatus.Paid);
    match if row.order.Some? then ProcessPaidTx(paid, row.order.value) else Commit(paid)
    case Abort(e) => Abort(e)
    case Commit(ordered) =>
      if row.quote.Some? then CreditQuoteTx(ordered, row.quote.value, row.amount) else Commit(ordered)
  }

  /** The webhook after its signature check. */
  function WebhookTx(db: Db, reference: string, event: ChargeEvent): Tx<Db> {
    match FindFirst(db.payments, WithReference(reference))
    case None => Abort(NotFound)
    case Some(i) =>
      if Settled(db.payments[i].status) then Commit(db)
      else
        match event
        case Success => ChargeSucceededTx(db, i)
        case Failure => Commit(SetPaymentStatus(db, i, PaymentStatus.Failed))
        case Unhandled => Commit(db)
  }

  // ---------------------------------------------------------------- catalogue and quotes

  function UpdateThresholdTx(db: Db, pid: int, threshold: int): Tx<Db> {
    if !Known(db.products, pid) then Abort(NotFound)
    else if threshold < 0 then Abort(Conflict)
    else Commit(db.(products := db.products[pid := db.products[pid].(threshold := threshold)]))
  }

  function CreateProductTx(db: Db, price: int, stock: int, threshold: int): Tx<Db> {
    if stock < 0 || threshold < 0 then Abort(Conflict)
    else Commit(db.(products := db.products + [Product(price, stock, threshold, false)]))
  }

  function UpdateProductTx(db: Db, pid: int, price: int, archived: bool): Tx<Db> {
    if !Known(db.products, pid) then Abort(NotFound)
    else Commit(db.(products := db.products[pid := db.products[pid].(price := price, archived := archived)]))
  }

  /** Approval, rejection, expiry and supersession change a quote's status only. */
  function ReviewQuoteTx(db: Db, quote: int, status: QuoteStatus): Tx<Db> {
    if !QuoteExists(db, quote) then Abort(NotFound)
    else if status.Paid? || status.PartiallyPaid? then Abort(Invalid)
    else Commit(db.(quotes := db.quotes[quote := db.quotes[quote].(status := status)]))
  }

  // ---------------------------------------------------------------- runs

  datatype Command =
    | CreateOrder(request: int, lines: seq<Line>)
    | CreateOrderFromQuote(request: int, amount: int)
    | InitializePayment(order: int, reference: string, now: int, providerUp: bool)
    | InitializeQuotePayment(quote: int, plan: Plan, balanceAllowed: bool, reference: string, now: int,
                             roundUp: bool, providerUp: bool)
    | Expire(now: int)
    | CancelPayment(payment: int)
    | RefundPayment(payment: int)
    | EscalatePayment(payment: int)
    | Webhook(reference: string, event: ChargeEvent)
    | CancelOrder(order: int, reason: string)
    | FulfillOrder(order: int)
    | AdjustInventory(product: int, amount: int)
    | UpdateThreshold(product: int, threshold: int)
    | CreateProduct(price: int, stock: int, threshold: int)
    | UpdateProduct(product: int, price: int, archived: bool)
    | IssueQuote(amount: int)
    | ReviewQuote(quote: int, status: QuoteStatus)

  function Execute(db: Db, c: Command): Tx<Db> {
    match c
    case CreateOrder(request, lines) => CreateOrderTx(db, request, lines)
    case CreateOrderFromQuote(request, amount) => CreateOrderFromQuoteTx(db, request, amount)
    case InitializePayment(order, reference, now, up) => InitializeForOrderTx(db, order, reference, now, up)
    case InitializeQuotePayment(quote, plan, allowed, reference, now, roundUp, up) =>
      InitializeQuotePaymentTx(db, quote, plan, allowed, reference, now, roundUp, up)
    case Expire(now) => Commit(db.(payments := ExpirePayments(db.payments, now)))
    case CancelPayment(payment) => CancelPaymentTx(db, payment)
    case RefundPayment(payment) => RefundPaymentTx(db, payment)
    case EscalatePayment(payment) => EscalatePaymentTx(db, payment)
    case Webhook(reference, event) => WebhookTx(db, reference, event)
    case CancelOrder(order, reason) => CancelOrderTx(db, Some(order), reason)
    case FulfillOrder(order) => FulfillOrderTx(db, order)
    case AdjustInventory(pid, amount) =>
      (match Adjust(db.products, pid, amount, db.alertRaises)
       case Abort(e) => Abort(e)
       case Commit(products) => Commit(db.(products := products)))
    case UpdateThreshold(pid, threshold) => UpdateThresholdTx(db, pid, threshold)
    case CreateProduct(price, stock, threshold) => CreateProductTx(db, price, stock, threshold)
    case UpdateProduct(pid, price, archived) => UpdateProductTx(db, pid, price, archived)
    case IssueQuote(amount) => Commit(db.(quotes := db.quotes + [Quote(amount, 0, QuoteStatus.Issued, None)]))
    case ReviewQuote(quote, status) => ReviewQuoteTx(db, quote, status)
  }

  /** A command that aborts leaves the database as it was. */
  function Step(db: Db, c: Command): Db {
    match Execute(db, c)
    case Commit(db') => db'
    case Abort(_) => db
  }

  function Run(db: Db, commands: seq<Command>): Db {
    if commands == [] then db else Step(Run(db, commands[..|commands| - 1]), commands[|commands| - 1])
  }

  function Empty(alertRaises: bool): Db { Db([], [], [], [], alertRaises) }
}
