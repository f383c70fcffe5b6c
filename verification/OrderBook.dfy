/** Orders against their payments: a paid order is funded, a charge counts once. */
module OrderBook {
  import opened Prelude
  import opened Inventory
  import opened Ledger
  import opened LedgerStructure

  predicate Honoured(status: OrderStatus) { status.Paid? || status.Fulfilled? }

  /** Some paid payment covers the order's total. */
  predicate Funded(db: Db, order: nat)
    requires order < |db.orders|
  {
    exists i :: 0 <= i < |db.payments| && Funds(db.payments[i], order, db.orders[order].total)
  }

  predicate Funds(p: Payment, order: nat, total: int) {
    p.order == Some(order) && p.status.Paid? && p.amount == total
  }

  predicate AllFunded(db: Db) {
    forall o :: 0 <= o < |db.orders| && Honoured(db.orders[o].status) ==> Funded(db, o)
  }

  /** Overriding a paid payment's status is harmless only while its order is neither paid nor fulfilled. */
  predicate OverrideFunded(db: Db, payment: int) {
    PaymentExists(db, payment) && db.payments[payment].status.Paid? && db.payments[payment].order.Some?
      && OrderExists(db, db.payments[payment].order.value) ==>
      !Honoured(db.orders[db.payments[payment].order.value].status)
  }

  predicate KeepsFunding(db: Db, c: Command) {
    match c
    case CancelPayment(p) => OverrideFunded(db, p)
    case EscalatePayment(p) => OverrideFunded(db, p)
    case _ => true
  }

  /** An order stays funded when its paid payment row survives. */
  lemma FundingSurvives(db: Db, db': Db)
    requires AllFunded(db) && TermsKept(db.orders, db'.orders) && |db.payments| <= |db'.payments|
    requires forall o :: 0 <= o < |db'.orders| && Honoured(db'.orders[o].status) ==>
               (o < |db.orders| && Honoured(db.orders[o].status)) || Funded(db', o)
    requires forall i :: 0 <= i < |db.payments| && db.payments[i].status.Paid? && db.payments[i].order.Some? ==>
               db'.payments[i] == db.payments[i] ||
               (db.payments[i].order.value < |db'.orders| && !Honoured(db'.orders[db.payments[i].order.value].status))
    ensures AllFunded(db')
  {
    forall o | 0 <= o < |db'.orders| && Honoured(db'.orders[o].status) ensures Funded(db', o) {
      if o < |db.orders| && Honoured(db.orders[o].status) {
        assert Funded(db, o);
        var i :| 0 <= i < |db.payments| && Funds(db.payments[i], o, db.orders[o].total);
        assert Funds(db'.payments[i], o, db'.orders[o].total);
      }
    }
  }

  lemma OverrideFundedExact(db: Db, payment: nat, status: PaymentStatus)
    requires WellFormed(db) && AllFunded(db) && payment < |db.payments| && !status.Paid?
    ensures AllFunded(SetPaymentStatus(db, payment, status)) <==> OverrideFunded(db, payment)
  {
    var db' := SetPaymentStatus(db, payment, status);
    var row := db.payments[payment];
    assert PaymentOwned(row, db.orders, db.quotes);
    if OverrideFunded(db, payment) {
      FundingSurvives(db, db');
    } else {
      forall i | 0 <= i < |db'.payments|
        ensures !Funds(db'.payments[i], row.order.value, db'.orders[row.order.value].total)
      {
        assert i == payment || Apart(db.payments[i], row);
      }
      assert !Funded(db', row.order.value);
    }
  }

  lemma UpsertsFunded(db: Db, c: Command)
    requires WellFormed(db) && AllFunded(db) && Execute(db, c).Commit?
    requires c.InitializePayment? || c.InitializeQuotePayment?
    ensures AllFunded(Step(db, c))
  {
    forall i | 0 <= i < |db.payments| ensures PaymentOwned(db.payments[i], db.orders, db.quotes) {}
    FundingSurvives(db, Step(db, c));
  }

  lemma WebhookFunded(db: Db, reference: string, event: ChargeEvent)
    requires WellFormed(db) && AllFunded(db)
    ensures AllFunded(Step(db, Webhook(reference, event)))
  {
    var db' := Step(db, Webhook(reference, event));
    var found := FindFirst(db.payments, WithReference(reference));
    if db' != db {
      var i := found.value;
      var row := db.payments[i];
      assert PaymentOwned(row, db.orders, db.quotes);
      if event.Failure? {
        OverrideFundedExact(db, i, PaymentStatus.Failed);
      } else {
        assert db'.payments == db.payments[i := row.(status := PaymentStatus.Paid)];
        if row.order.Some? {
          assert Funds(db'.payments[i], row.order.value, db'.orders[row.order.value].total);
        }
        FundingSurvives(db, db');
      }
    }
  }

  lemma RefundFunded(db: Db, payment: int)
    requires WellFormed(db) && AllFunded(db) && RefundPaymentTx(db, payment).Commit?
    ensures AllFunded(Step(db, RefundPayment(payment)))
  {
    FundingSurvives(db, Step(db, RefundPayment(payment)));
  }

  lemma OrderStepsFunded(db: Db, c: Command)
    requires WellFormed(db) && AllFunded(db)
    requires c.Expire? || c.CreateOrder? || c.CreateOrderFromQuote? || c.CancelOrder? || c.FulfillOrder?
    ensures AllFunded(Step(db, c))
  {
    FundingSurvives(db, Step(db, c));
  }

  lemma CatalogueStepsFunded(db: Db, c: Command)
    requires AllFunded(db)
    requires c.AdjustInventory? || c.UpdateThreshold? || c.CreateProduct? || c.UpdateProduct? ||
             c.IssueQuote? || c.ReviewQuote?
    ensures AllFunded(Step(db, c))
  {
    SameOrdersFunded(db, Step(db, c));
  }

  /** A step keeps every paid or fulfilled order funded if and only if it is one of the safe ones. */
  lemma StepFundedExactly(db: Db, c: Command)
    requires WellFormed(db) && AllFunded(db) && Execute(db, c).Commit?
    ensures AllFunded(Step(db, c)) <==> KeepsFunding(db, c)
  {
    match c {
      case InitializePayment(_, _, _, _) => UpsertsFunded(db, c);
      case InitializeQuotePayment(_, _, _, _, _, _, _) => UpsertsFunded(db, c);
      case CancelPayment(p) => OverrideFundedExact(db, p, PaymentStatus.Cancelled);
      case RefundPayment(p) => RefundFunded(db, p);
      case EscalatePayment(p) => OverrideFundedExact(db, p, PaymentStatus.Escalated);
      case Webhook(reference, event) => WebhookFunded(db, reference, event);
      case Expire(_) => OrderStepsFunded(db, c);
      case CreateOrder(_, _) => OrderStepsFunded(db, c);
      case CreateOrderFromQuote(_, _) => OrderStepsFunded(db, c);
      case CancelOrder(_, _) => OrderStepsFunded(db, c);
      case FulfillOrder(_) => OrderStepsFunded(db, c);
      case AdjustInventory(_, _) => CatalogueStepsFunded(db, c);
      case UpdateThreshold(_, _) => CatalogueStepsFunded(db, c);
      case CreateProduct(_, _, _) => CatalogueStepsFunded(db, c);
      case UpdateProduct(_, _, _) => CatalogueStepsFunded(db, c);
      case IssueQuote(_) => CatalogueStepsFunded(db, c);
      case ReviewQuote(_, _) => CatalogueStepsFunded(db, c);
    }
  }

  lemma SameOrdersFunded(db: Db, db': Db)
    requires AllFunded(db) && db'.orders == db.orders && db'.payments == db.payments
    ensures AllFunded(db')
  {
    forall o | 0 <= o < |db'.orders| && Honoured(db'.orders[o].status) ensures Funded(db', o) {
      assert Funded(db, o);
    }
  }

  predicate AllHarmless(db: Db, commands: seq<Command>) {
    forall n :: 0 <= n < |commands| ==> KeepsFunding(Run(db, commands[..n]), commands[n])
  }

  /** In every run of safe steps a paid or fulfilled order has a paid payment of exactly its total. */
  lemma {:induction false} RunFunded(db: Db, commands: seq<Command>)
    requires WellFormed(db) && AllFunded(db) && AllHarmless(db, commands)
    ensures WellFormed(Run(db, commands)) && AllFunded(Run(db, commands))
  {
    RunKeepsWellFormed(db, commands);
    if commands != [] {
      var n := |commands| - 1;
      forall k | 0 <= k < n ensures KeepsFunding(Run(db, commands[..n][..k]), commands[..n][k]) {
        assert commands[..n][..k] == commands[..k];
        assert KeepsFunding(Run(db, commands[..k]), commands[k]);
      }
      RunFunded(db, commands[..n]);
      assert KeepsFunding(Run(db, commands[..n]), commands[n]);
      if Execute(Run(db, commands[..n]), commands[n]).Commit? {
        StepFundedExactly(Run(db, commands[..n]), commands[n]);
      }
    }
  }

  // ---------------------------------------------------------------- at-least-once delivery

  /** No run of webhooks, in any order and with any repeats, changes a paid or cancelled payment. */
  lemma {:induction false} SettledIsFixed(db: Db, hooks: seq<Command>, payment: nat)
    requires payment < |db.payments|
    requires db.payments[payment].status.Paid? || db.payments[payment].status.Cancelled?
    requires forall n :: 0 <= n < |hooks| ==> hooks[n].Webhook?
    ensures payment < |Run(db, hooks).payments|
    ensures Run(db, hooks).payments[payment] == db.payments[payment]
  {
    if hooks != [] {
      var before := Run(db, hooks[..|hooks| - 1]);
      var hook := hooks[|hooks| - 1];
      SettledIsFixed(db, hooks[..|hooks| - 1], payment);
      WebhookKeepsSettled(before, hook.reference, hook.event, payment);
    }
  }

  lemma WebhookKeepsSettled(db: Db, reference: string, event: ChargeEvent, payment: nat)
    requires payment < |db.payments| && Settled(db.payments[payment].status)
    ensures payment < |Step(db, Webhook(reference, event)).payments|
    ensures Step(db, Webhook(reference, event)).payments[payment] == db.payments[payment]
  {
  }

  /** Once a charge has been processed, every further delivery for its reference changes nothing at all. */
  lemma DuplicateDelivery(db: Db, reference: string, event: ChargeEvent)
    requires WellFormed(db) && WebhookTx(db, reference, Success).Commit?
    ensures var db' := WebhookTx(db, reference, Success).state;
            WebhookTx(db', reference, event) == Commit(db')
  {
    var db' := WebhookTx(db, reference, Success).state;
    var i := FindFirst(db.payments, WithReference(reference)).value;
    assert |db'.payments| == |db.payments|;
    assert forall k :: 0 <= k < |db.payments| ==> db'.payments[k].reference == db.payments[k].reference;
    assert WithReference(reference)(db'.payments[i]);
    var found := FindFirst(db'.payments, WithReference(reference));
    assert found == Some(i) by {
      forall k | 0 <= k < i ensures !WithReference(reference)(db'.payments[k]) {
        assert !WithReference(reference)(db.payments[k]);
      }
    }
  }

  /** When a successful charge for an open payment commits: for a quote always; for an order exactly when the
      order is payable and its lines do not set off a failing low-stock alert. Until they no longer do, every
      delivery of the charge rolls back. */
  lemma ChargeCommitsExactly(db: Db, reference: string, i: nat)
    requires WellFormed(db) && FindFirst(db.payments, WithReference(reference)) == Some(i)
    requires !db.payments[i].status.Paid? && !db.payments[i].status.Cancelled?
    ensures WebhookTx(db, reference, Success).Commit? <==>
            db.payments[i].order.Some? ==>
              OrderExists(db, db.payments[i].order.value) &&
              var order := db.orders[db.payments[i].order.value];
              && (order.status.PendingPayment? || order.status.Created?)
              && !(db.alertRaises && AlertStops(db.products, LinesOf(order.items)))
  {
    assert PaymentOwned(db.payments[i], db.orders, db.quotes);
    if db.payments[i].order.Some? {
      var order := db.payments[i].order.value;
      LinesPositive(db, order);
      ReduceCrashesExactly(db.products, LinesOf(db.orders[order].items), db.alertRaises);
    }
  }

  /** The order was not paid before the step and is paid after it. */
  predicate MarksPaid(before: Db, after: Db, order: nat) {
    && OrderExists(after, order) && after.orders[order].status.Paid?
    && !(OrderExists(before, order) && before.orders[order].status.Paid?)
  }

  predicate Initialises(db: Db, c: Command, order: nat) {
    c.InitializePayment? && c.order == order && Execute(db, c).Commit?
  }

  function Marks(db: Db, commands: seq<Command>, order: nat): nat {
    if commands == [] then 0
    else
      var before := Run(db, commands[..|commands| - 1]);
      Marks(db, commands[..|commands| - 1], order) +
      if MarksPaid(before, Step(before, commands[|commands| - 1]), order) then 1 else 0
  }

  function Initialisations(db: Db, commands: seq<Command>, order: nat): nat {
    if commands == [] then 0
    else
      var before := Run(db, commands[..|commands| - 1]);
      Initialisations(db, commands[..|commands| - 1], order) +
      if Initialises(before, commands[|commands| - 1], order) then 1 else 0
  }

  /** One when the order can still be marked paid: it is payable and a payment exists for it. */
  function Chances(db: Db, order: nat): nat {
    if OrderExists(db, order) && Payable(db.orders[order].status) &&
       (exists i :: 0 <= i < |db.payments| && db.payments[i].order == Some(order))
    then 1 else 0
  }

  lemma SamePaymentOwners(db: Db, db': Db, order: nat)
    requires |db'.payments| == |db.payments|
    requires forall i :: 0 <= i < |db.payments| ==> db'.payments[i].order == db.payments[i].order
    ensures (exists i :: 0 <= i < |db'.payments| && db'.payments[i].order == Some(order)) <==>
            (exists i :: 0 <= i < |db.payments| && db.payments[i].order == Some(order))
  {
    if i :| 0 <= i < |db.payments| && db.payments[i].order == Some(order) {
      assert db'.payments[i].order == Some(order);
    }
  }

  /** What a webhook does to orders: at most it marks the payable order of a payment as paid. */
  lemma WebhookMarks(db: Db, c: Command)
    requires WellFormed(db) && c.Webhook?
    ensures var db' := Step(db, c);
            && |db'.payments| == |db.payments| && |db'.orders| == |db.orders|
            && (forall i :: 0 <= i < |db.payments| ==> db'.payments[i].order == db.payments[i].order)
            && (forall o :: 0 <= o < |db.orders| ==>
                  db'.orders[o].status == db.orders[o].status ||
                  (Payable(db.orders[o].status) && db'.orders[o].status.Paid? &&
                   exists i :: 0 <= i < |db.payments| && db.payments[i].order == Some(o)))
  {
    var found := FindFirst(db.payments, WithReference(c.reference));
    if found.Some? {
      assert PaymentOwned(db.payments[found.value], db.orders, db.quotes);
    }
  }

  lemma MarkingUsesChance(db: Db, db': Db, order: nat)
    requires |db'.payments| == |db.payments| && |db'.orders| == |db.orders|
    requires forall i :: 0 <= i < |db.payments| ==> db'.payments[i].order == db.payments[i].order
    requires forall o :: 0 <= o < |db.orders| ==>
               db'.orders[o].status == db.orders[o].status ||
               (Payable(db.orders[o].status) && db'.orders[o].status.Paid? &&
                exists i :: 0 <= i < |db.payments| && db.payments[i].order == Some(o))
    ensures (if MarksPaid(db, db', order) then 1 else 0) + Chances(db', order) <= Chances(db, order)
  {
    SamePaymentOwners(db, db', order);
  }

  lemma WebhookChances(db: Db, c: Command, order: nat)
    requires WellFormed(db) && c.Webhook?
    ensures (if MarksPaid(db, Step(db, c), order) then 1 else 0) + Chances(Step(db, c), order) <= Chances(db, order)
  {
    WebhookMarks(db, c);
    MarkingUsesChance(db, Step(db, c), order);
  }

  lemma InitialiseChances(db: Db, c: Command, order: nat)
    requires c.InitializePayment? || c.InitializeQuotePayment?
    ensures !MarksPaid(db, Step(db, c), order)
    ensures Chances(Step(db, c), order) <= (if Initialises(db, c, order) then 1 else 0) + Chances(db, order)
  {
    var db' := Step(db, c);
    if Chances(db', order) == 1 && !Initialises(db, c, order) {
      var i :| 0 <= i < |db'.payments| && db'.payments[i].order == Some(order);
      assert i < |db.payments| && db.payments[i].order == Some(order);
    }
  }

  /** Statuses leave the payable ones without being marked paid, or the orders do not change at all. */
  lemma QuietChances(db: Db, db': Db, order: nat)
    requires |db'.payments| == |db.payments| && |db'.orders| == |db.orders|
    requires forall i :: 0 <= i < |db.payments| ==> db'.payments[i].order == db.payments[i].order
    requires forall o :: 0 <= o < |db.orders| ==>
               db'.orders[o].status == db.orders[o].status ||
               !(db'.orders[o].status.Paid? || Payable(db'.orders[o].status))
    ensures !MarksPaid(db, db', order) && Chances(db', order) <= Chances(db, order)
  {
    SamePaymentOwners(db, db', order);
  }

  lemma PaymentStepsQuiet(db: Db, c: Command, order: nat)
    requires c.Expire? || c.CancelPayment? || c.RefundPayment? || c.EscalatePayment?
    ensures !MarksPaid(db, Step(db, c), order) && Chances(Step(db, c), order) <= Chances(db, order)
  {
    QuietChances(db, Step(db, c), order);
  }

  lemma OtherStepsQuiet(db: Db, c: Command, order: nat)
    requires c.CancelOrder? || c.FulfillOrder? || c.AdjustInventory? || c.UpdateThreshold? || c.CreateProduct? ||
             c.UpdateProduct? || c.IssueQuote? || c.ReviewQuote?
    ensures !MarksPaid(db, Step(db, c), order) && Chances(Step(db, c), order) <= Chances(db, order)
  {
    QuietChances(db, Step(db, c), order);
  }

  lemma NewOrderChances(db: Db, c: Command, order: nat)
    requires WellFormed(db) && (c.CreateOrder? || c.CreateOrderFromQuote?)
    ensures !MarksPaid(db, Step(db, c), order) && Chances(Step(db, c), order) <= Chances(db, order)
  {
    NewOrderHasNoPayment(db, Step(db, c), order);
  }

  lemma StepChances(db: Db, c: Command, order: nat)
    requires WellFormed(db)
    ensures (if MarksPaid(db, Step(db, c), order) then 1 else 0) + Chances(Step(db, c), order)
            <= (if Initialises(db, c, order) then 1 else 0) + Chances(db, order)
  {
    if c.Webhook? {
      WebhookChances(db, c, order);
    } else if c.InitializePayment? || c.InitializeQuotePayment? {
      InitialiseChances(db, c, order);
    } else if c.CreateOrder? || c.CreateOrderFromQuote? {
      NewOrderChances(db, c, order);
    } else if c.Expire? || c.CancelPayment? || c.RefundPayment? || c.EscalatePayment? {
      PaymentStepsQuiet(db, c, order);
    } else {
      OtherStepsQuiet(db, c, order);
    }
  }

  lemma NewOrderHasNoPayment(db: Db, db': Db, order: nat)
    requires WellFormed(db) && db'.payments == db.payments && |db.orders| <= |db'.orders|
    requires forall o :: 0 <= o < |db.orders| ==> db'.orders[o] == db.orders[o]
    ensures Chances(db', order) <= Chances(db, order)
  {
    if i :| 0 <= i < |db.payments| && db.payments[i].order == Some(order) {
      assert PaymentOwned(db.payments[i], db.orders, db.quotes);
    }
  }

  /** However webhooks repeat, an order is marked paid at most once per payment initialisation. */
  lemma {:induction false} MarkedAtMostInitialised(db: Db, commands: seq<Command>, order: nat)
    requires WellFormed(db)
    ensures Marks(db, commands, order) + Chances(Run(db, commands), order)
            <= Initialisations(db, commands, order) + Chances(db, order)
  {
    if commands != [] {
      var n := |commands| - 1;
      RunKeepsWellFormed(db, commands[..n]);
      MarkedAtMostInitialised(db, commands[..n], order);
      StepChances(Run(db, commands[..n]), commands[n], order);
    }
  }

  /** From an empty ledger the bound has no slack term. */
  lemma MarksBoundedByInitialisations(commands: seq<Command>, order: nat, alertRaises: bool)
    ensures Marks(Empty(alertRaises), commands, order) <= Initialisations(Empty(alertRaises), commands, order)
  {
    MarkedAtMostInitialised(Empty(alertRaises), commands, order);
  }
}
