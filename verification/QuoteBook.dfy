/** The money of a quote: what was credited, what is pending, and when the two stay within its amount. */
module QuoteBook {
  import opened Prelude
  import opened Ledger
  import opened LedgerStructure

  function PaidTo(quote: int): Payment -> int {
    (p: Payment) => if p.quote.Some? && p.quote.value == quote && p.status.Paid? then p.amount else 0
  }

  function PendingTo(quote: int): Payment -> int {
    (p: Payment) => if p.quote.Some? && p.quote.value == quote && p.status.Pending? then p.amount else 0
  }

  function PaidSum(db: Db, quote: int): int { Sum(db.payments, PaidTo(quote)) }
  function PendingSum(db: Db, quote: int): int { Sum(db.payments, PendingTo(quote)) }

  /** The credited amount is the sum of the paid payments, and the pending one still fits. */
  predicate Balanced(db: Db, quote: int)
    requires QuoteExists(db, quote)
  {
    && db.quotes[quote].paid == PaidSum(db, quote)
    && db.quotes[quote].paid + PendingSum(db, quote) <= Max(0, db.quotes[quote].amount)
  }

  predicate AllBalanced(db: Db) {
    forall q :: 0 <= q < |db.quotes| ==> Balanced(db, q)
  }

  /** A status override takes a paid quote payment off the books; only a zero payment can afford it. */
  predicate OverrideSafe(db: Db, payment: int) {
    PaymentExists(db, payment) && db.payments[payment].quote.Some? && db.payments[payment].status.Paid? ==>
      db.payments[payment].amount == 0
  }

  /** A successful charge must reach a pending payment, or one that still fits beside what is owed. */
  predicate CreditSafe(db: Db, reference: string) {
    match FindFirst(db.payments, WithReference(reference))
    case None => true
    case Some(i) =>
      var p := db.payments[i];
      p.quote.Some? && QuoteExists(db, p.quote.value) && !Settled(p.status) && !p.status.Pending? ==>
        var quote := db.quotes[p.quote.value];
        quote.paid + PendingSum(db, p.quote.value) + p.amount <= Max(0, quote.amount)
  }

  predicate KeepsBalance(db: Db, c: Command) {
    match c
    case CancelPayment(p) => OverrideSafe(db, p)
    case EscalatePayment(p) => OverrideSafe(db, p)
    case Webhook(reference, event) => event.Success? ==> CreditSafe(db, reference)
    case _ => true
  }

  /** The sums before and after one payment row is replaced by another for the same quote. */
  lemma RowReplaced(db: Db, i: nat, row: Payment)
    requires i < |db.payments| && row.quote == db.payments[i].quote
    ensures var db' := db.(payments := db.payments[i := row]);
            forall q ::
              && PaidSum(db', q) == PaidSum(db, q) - PaidTo(q)(db.payments[i]) + PaidTo(q)(row)
              && PendingSum(db', q) == PendingSum(db, q) - PendingTo(q)(db.payments[i]) + PendingTo(q)(row)
  {
    var db' := db.(payments := db.payments[i := row]);
    forall q ensures
      && PaidSum(db', q) == PaidSum(db, q) - PaidTo(q)(db.payments[i]) + PaidTo(q)(row)
      && PendingSum(db', q) == PendingSum(db, q) - PendingTo(q)(db.payments[i]) + PendingTo(q)(row)
    {
      SumUpdate(db.payments, i, row, PaidTo(q));
      SumUpdate(db.payments, i, row, PendingTo(q));
    }
  }

  /** Structure alone makes the pending sum of a quote its one pending payment. */
  lemma {:induction false} OnePending(payments: seq<Payment>, quote: int)
    requires PaymentsApart(payments)
    ensures var first := FindFirst(payments, PendingFor(quote));
            Sum(payments, PendingTo(quote)) == if first.Some? then payments[first.value].amount else 0
  {
    if payments != [] {
      var n := |payments| - 1;
      forall i, j | 0 <= i < n && 0 <= j < n && i != j ensures Apart(payments[..n][i], payments[..n][j]) {
        assert Apart(payments[i], payments[j]);
      }
      OnePending(payments[..n], quote);
      var before := FindFirst(payments[..n], PendingFor(quote));
      if before.Some? {
        assert Apart(payments[before.value], payments[n]);
      }
    }
  }

  lemma SameMoney(db: Db, db': Db)
    requires AllBalanced(db) && db'.payments == db.payments && |db'.quotes| == |db.quotes|
    requires forall q :: 0 <= q < |db.quotes| ==>
               db'.quotes[q].amount == db.quotes[q].amount && db'.quotes[q].paid == db.quotes[q].paid
    ensures AllBalanced(db')
  {
    forall q | 0 <= q < |db'.quotes| ensures Balanced(db', q) {
      assert Balanced(db, q);
    }
  }

  /** Overriding a payment's status keeps the books exactly when it was not a paid quote payment. */
  lemma OverrideExact(db: Db, payment: nat, status: PaymentStatus)
    requires WellFormed(db) && AllBalanced(db) && payment < |db.payments|
    requires !status.Pending? && !status.Paid?
    ensures AllBalanced(SetPaymentStatus(db, payment, status)) <==> OverrideSafe(db, payment)
  {
    var row := db.payments[payment];
    var db' := SetPaymentStatus(db, payment, status);
    assert PaymentOwned(row, db.orders, db.quotes);
    RowReplaced(db, payment, row.(status := status));
    if OverrideSafe(db, payment) {
      forall q | 0 <= q < |db'.quotes| ensures Balanced(db', q) { assert Balanced(db, q); }
    } else {
      assert Balanced(db, row.quote.value);
      assert !Balanced(db', row.quote.value);
    }
  }

  lemma ExpireBalanced(db: Db, now: int)
    requires WellFormed(db) && AllBalanced(db)
    ensures AllBalanced(db.(payments := ExpirePayments(db.payments, now)))
  {
    var payments := ExpirePayments(db.payments, now);
    var db' := db.(payments := payments);
    forall q | 0 <= q < |db'.quotes| ensures Balanced(db', q) {
      assert Balanced(db, q);
      forall i | 0 <= i < |payments|
        ensures PaidTo(q)(payments[i]) == PaidTo(q)(db.payments[i])
        ensures PendingTo(q)(payments[i]) <= PendingTo(q)(db.payments[i])
      {
        assert PaymentOwned(db.payments[i], db.orders, db.quotes);
      }
      SumMonotone(payments, db.payments, PaidTo(q));
      SumMonotone(db.payments, payments, PaidTo(q));
      SumMonotone(payments, db.payments, PendingTo(q));
    }
  }

  /** The due amount, however half a kobo is stored, never takes the credited total past the quote amount. The
      full plan and the balance reach it exactly; the first half of a fifty-fifty plan is half of it to the kobo. */
  lemma PlanFits(quote: Quote, plan: Plan, allowed: bool, roundUp: bool)
    requires PlanDue(quote, plan, allowed).Commit? && PlanDue(quote, plan, allowed).state > 0
    ensures var stored := StoredKobo(PlanDue(quote, plan, allowed).state, roundUp);
            && 0 <= stored && quote.paid + stored <= quote.amount
            && (plan.Full? || 2 * quote.paid >= quote.amount ==> quote.paid + stored == quote.amount)
            && (plan.FiftyFifty? && 2 * quote.paid < quote.amount ==>
                  quote.amount - 1 <= 2 * stored <= quote.amount + 1)
  {
    StoredKoboBounds(PlanDue(quote, plan, allowed).state, roundUp);
  }

  lemma InitializeQuoteBalanced(db: Db, c: Command)
    requires WellFormed(db) && AllBalanced(db) && c.InitializeQuotePayment? && Execute(db, c).Commit?
    ensures AllBalanced(Execute(db, c).state)
    ensures PendingSum(Execute(db, c).state, c.quote) ==
            StoredKobo(PlanDue(db.quotes[c.quote], c.plan, c.balanceAllowed).state, c.roundUp)
  {
    var db' := Execute(db, c).state;
    var due := PlanDue(db.quotes[c.quote], c.plan, c.balanceAllowed).state;
    var amount := StoredKobo(due, c.roundUp);
    PlanFits(db.quotes[c.quote], c.plan, c.balanceAllowed, c.roundUp);
    OnePending(db.payments, c.quote);
    var first := FindFirst(db.payments, PendingFor(c.quote));
    if first.Some? {
      var row := db.payments[first.value].(reference := c.reference, amount := amount);
      RowReplaced(db, first.value, row);
      assert db'.payments == db.payments[first.value := row];
    } else {
      var row := Payment(None, Some(c.quote), c.reference, amount, PaymentStatus.Pending, c.now);
      forall q ensures PaidSum(db', q) == PaidSum(db, q)
               ensures PendingSum(db', q) == PendingSum(db, q) + PendingTo(q)(row) {
        SumAppend(db.payments, row, PaidTo(q));
        SumAppend(db.payments, row, PendingTo(q));
      }
    }
    forall q | 0 <= q < |db'.quotes| ensures Balanced(db', q) { assert Balanced(db, q); }
  }

  lemma InitializeOrderBalanced(db: Db, c: Command)
    requires WellFormed(db) && AllBalanced(db) && c.InitializePayment? && Execute(db, c).Commit?
    ensures AllBalanced(Execute(db, c).state)
  {
    var db' := Execute(db, c).state;
    var first := FindFirst(db.payments, ForOrder(c.order));
    if first.Some? {
      var row := db.payments[first.value].(reference := c.reference, status := PaymentStatus.Pending);
      assert PaymentOwned(db.payments[first.value], db.orders, db.quotes);
      RowReplaced(db, first.value, row);
    } else {
      var row := db'.payments[|db.payments|];
      forall q ensures PaidSum(db', q) == PaidSum(db, q) && PendingSum(db', q) == PendingSum(db, q) {
        SumAppend(db.payments, row, PaidTo(q));
        SumAppend(db.payments, row, PendingTo(q));
      }
    }
    forall q | 0 <= q < |db'.quotes| ensures Balanced(db', q) { assert Balanced(db, q); }
  }

  lemma IssueQuoteBalanced(db: Db, amount: int)
    requires WellFormed(db) && AllBalanced(db)
    ensures AllBalanced(Step(db, IssueQuote(amount)))
  {
    var db' := Step(db, IssueQuote(amount));
    forall q | 0 <= q < |db'.quotes| ensures Balanced(db', q) {
      if q < |db.quotes| {
        assert Balanced(db, q);
      } else {
        forall i | 0 <= i < |db.payments| ensures PaidTo(q)(db.payments[i]) == PendingTo(q)(db.payments[i]) == 0 {
          assert PaymentOwned(db.payments[i], db.orders, db.quotes);
        }
        SumZero(db.payments, PaidTo(q));
        SumZero(db.payments, PendingTo(q));
      }
    }
  }

  /** A successful charge that goes through keeps the books exactly when it is safe. */
  lemma ChargeExact(db: Db, reference: string)
    requires WellFormed(db) && AllBalanced(db) && WebhookTx(db, reference, Success).Commit?
    ensures AllBalanced(WebhookTx(db, reference, Success).state) <==> CreditSafe(db, reference)
  {
    var db' := WebhookTx(db, reference, Success).state;
    var i := FindFirst(db.payments, WithReference(reference)).value;
    var row := db.payments[i];
    assert PaymentOwned(row, db.orders, db.quotes);
    if !Settled(row.status) {
      RowReplaced(db, i, row.(status := PaymentStatus.Paid));
      assert db'.payments == db.payments[i := row.(status := PaymentStatus.Paid)];
      forall q | 0 <= q < |db'.quotes| && row.quote != Some(q) ensures Balanced(db', q) { assert Balanced(db, q); }
      if row.quote.Some? {
        assert Balanced(db, row.quote.value);
        assert CreditSafe(db, reference) <==> Balanced(db', row.quote.value);
      }
    }
  }

  lemma FailureBalanced(db: Db, reference: string)
    requires WellFormed(db) && AllBalanced(db)
    ensures AllBalanced(Step(db, Webhook(reference, Failure)))
  {
    var found := FindFirst(db.payments, WithReference(reference));
    if found.Some? && !Settled(db.payments[found.value].status) {
      OverrideExact(db, found.value, PaymentStatus.Failed);
    }
  }

  lemma RefundBalanced(db: Db, payment: int)
    requires WellFormed(db) && AllBalanced(db)
    ensures AllBalanced(Step(db, RefundPayment(payment)))
  {
    if RefundPaymentTx(db, payment).Commit? {
      assert PaymentOwned(db.payments[payment], db.orders, db.quotes);
      OverrideExact(db, payment, PaymentStatus.Refunded);
      SameMoney(SetPaymentStatus(db, payment, PaymentStatus.Refunded), Step(db, RefundPayment(payment)));
    }
  }

  /** From balanced books, a step leaves them balanced if and only if it is one of the safe ones. */
  lemma StepBalancedExactly(db: Db, c: Command)
    requires WellFormed(db) && AllBalanced(db) && Execute(db, c).Commit?
    ensures AllBalanced(Step(db, c)) <==> KeepsBalance(db, c)
  {
    match c {
      case InitializePayment(_, _, _, _) => InitializeOrderBalanced(db, c);
      case InitializeQuotePayment(_, _, _, _, _, _, _) => InitializeQuoteBalanced(db, c);
      case Expire(now) => ExpireBalanced(db, now);
      case CancelPayment(p) => OverrideExact(db, p, PaymentStatus.Cancelled);
      case RefundPayment(p) => RefundBalanced(db, p);
      case EscalatePayment(p) => OverrideExact(db, p, PaymentStatus.Escalated);
      case Webhook(reference, event) =>
        match event {
          case Success => ChargeExact(db, reference);
          case Failure => FailureBalanced(db, reference);
          case Unhandled =>
        }
      case IssueQuote(amount) => IssueQuoteBalanced(db, amount);
      case _ => SameMoney(db, Step(db, c));
    }
  }

  predicate AllSafe(db: Db, commands: seq<Command>) {
    forall n :: 0 <= n < |commands| ==> KeepsBalance(Run(db, commands[..n]), commands[n])
  }

  /** In every run of safe steps each quote stays balanced and has at most one pending payment. */
  lemma {:induction false} RunBalanced(db: Db, commands: seq<Command>)
    requires WellFormed(db) && AllBalanced(db) && AllSafe(db, commands)
    ensures WellFormed(Run(db, commands)) && AllBalanced(Run(db, commands))
  {
    RunKeepsWellFormed(db, commands);
    if commands != [] {
      var n := |commands| - 1;
      forall k | 0 <= k < n ensures KeepsBalance(Run(db, commands[..n][..k]), commands[..n][k]) {
        assert commands[..n][..k] == commands[..k];
        assert KeepsBalance(Run(db, commands[..k]), commands[k]);
      }
      RunBalanced(db, commands[..n]);
      assert KeepsBalance(Run(db, commands[..n]), commands[n]);
      if Execute(Run(db, commands[..n]), commands[n]).Commit? {
        StepBalancedExactly(Run(db, commands[..n]), commands[n]);
      }
    }
  }

  /** The payment API's own guard makes every cancellation safe. */
  lemma GuardedCancelSafe(db: Db, payment: int)
    requires CancelPaymentRequestTx(db, payment).Commit?
    ensures KeepsBalance(db, CancelPayment(payment))
    ensures CancelPaymentRequestTx(db, payment) == Execute(db, CancelPayment(payment))
  {
  }

  /** Right after a charge is credited the quote reads paid exactly when its amount is reached. */
  lemma CreditedStatus(db: Db, reference: string)
    requires WellFormed(db) && WebhookTx(db, reference, Success).Commit?
    requires var i := FindFirst(db.payments, WithReference(reference)).value;
             !Settled(db.payments[i].status) && db.payments[i].quote.Some?
    ensures var p := db.payments[FindFirst(db.payments, WithReference(reference)).value];
            var quote' := WebhookTx(db, reference, Success).state.quotes[p.quote.value];
            && quote'.paid == db.quotes[p.quote.value].paid + p.amount
            && quote'.amount == db.quotes[p.quote.value].amount
            && (quote'.status.Paid? <==> quote'.paid >= quote'.amount)
            && (quote'.status.PartiallyPaid? <==> quote'.paid < quote'.amount)
  {
    assert PaymentOwned(db.payments[FindFirst(db.payments, WithReference(reference)).value], db.orders, db.quotes);
  }

  /** A quote payment can never be refunded: there is no order to cancel, so the refund rolls back. */
  lemma QuotePaymentNotRefundable(db: Db, payment: int)
    requires WellFormed(db) && PaymentExists(db, payment) && db.payments[payment].quote.Some?
    ensures RefundPaymentTx(db, payment).Abort?
  {
    assert PaymentOwned(db.payments[payment], db.orders, db.quotes);
  }
}
