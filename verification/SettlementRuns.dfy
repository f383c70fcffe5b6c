/** The settlement bound over whole runs: whatever else the ledger does in between, a quote paid by fifty-fifty
    payments has been credited what that many payments come to. */
module SettlementRuns {
  import opened Prelude
  import opened Ledger
  import opened LedgerStructure
  import opened Settlement

  predicate PendingOf(p: Payment, quote: nat) { p.quote == Some(quote) && p.status.Pending? }

  /** The charge this step credits to the quote, if any: a success for a payment that is pending. */
  predicate CreditsQuote(db: Db, c: Command, quote: nat) {
    c.Webhook? && c.event.Success? &&
    match FindFirst(db.payments, WithReference(c.reference))
    case None => false
    case Some(i) => PendingOf(db.payments[i], quote)
  }

  function CreditsAlong(db: Db, commands: seq<Command>, quote: nat): nat {
    if commands == [] then 0
    else
      var before, c := Run(db, commands[..|commands| - 1]), commands[|commands| - 1];
      CreditsAlong(db, commands[..|commands| - 1], quote) + if CreditsQuote(before, c, quote) then 1 else 0
  }

  /** Initialisations for the quote are fifty-fifty with one rounding, and a success for one of its payments
      reaches it pending or already settled. */
  predicate Regular(db: Db, c: Command, quote: nat, roundUp: bool) {
    match c
    case InitializeQuotePayment(q, plan, _, _, _, up, _) => q == quote ==> plan.FiftyFifty? && up == roundUp
    case Webhook(reference, Success) =>
      (match FindFirst(db.payments, WithReference(reference))
       case None => true
       case Some(i) =>
         db.payments[i].quote == Some(quote) ==>
           db.payments[i].status.Pending? || Settled(db.payments[i].status))
    case _ => true
  }

  predicate AllRegular(db: Db, commands: seq<Command>, quote: nat, roundUp: bool) {
    forall n :: 0 <= n < |commands| ==> Regular(Run(db, commands[..n]), commands[n], quote, roundUp)
  }

  /** After `n` credits the quote stands where n payments put it, and its pending payment is the next one. */
  predicate OnCourse(db: Db, quote: nat, amount: int, n: nat, roundUp: bool) {
    && QuoteExists(db, quote) && db.quotes[quote].amount == amount
    && db.quotes[quote].paid == PaidAfter(amount, n, roundUp)
    && forall i :: 0 <= i < |db.payments| && PendingOf(db.payments[i], quote) ==>
         db.quotes[quote].paid + db.payments[i].amount == NextPaid(amount, db.quotes[quote].paid, roundUp)
  }

  /** The quote's money is untouched and none of its payments has become pending. */
  predicate Undisturbed(db: Db, db': Db, quote: nat) {
    && QuoteExists(db, quote) && QuoteExists(db', quote)
    && db'.quotes[quote].paid == db.quotes[quote].paid && db'.quotes[quote].amount == db.quotes[quote].amount
    && forall i :: 0 <= i < |db'.payments| && PendingOf(db'.payments[i], quote) ==>
         i < |db.payments| && PendingOf(db.payments[i], quote) && db'.payments[i].amount == db.payments[i].amount
  }

  lemma UndisturbedOnCourse(db: Db, db': Db, quote: nat, amount: int, n: nat, roundUp: bool)
    requires OnCourse(db, quote, amount, n, roundUp) && Undisturbed(db, db', quote)
    ensures OnCourse(db', quote, amount, n, roundUp)
  {}

  lemma PaymentCallUndisturbed(db: Db, c: Command, quote: nat)
    requires QuoteExists(db, quote)
    requires c.Expire? || c.CancelPayment? || c.EscalatePayment? || c.RefundPayment? || c.CancelOrder?
    ensures Undisturbed(db, Step(db, c), quote)
  {}

  lemma OtherCallUndisturbed(db: Db, c: Command, quote: nat)
    requires QuoteExists(db, quote)
    requires c.CreateOrder? || c.CreateOrderFromQuote? || c.FulfillOrder? || c.AdjustInventory? || c.UpdateThreshold? ||
             c.CreateProduct? || c.UpdateProduct? || c.IssueQuote? || c.ReviewQuote?
    ensures Undisturbed(db, Step(db, c), quote)
  {}

  lemma OrderPaymentUndisturbed(db: Db, c: Command, quote: nat)
    requires WellFormed(db) && QuoteExists(db, quote) && c.InitializePayment?
    ensures Undisturbed(db, Step(db, c), quote)
  {
    var found := FindFirst(db.payments, ForOrder(c.order));
    if found.Some? { assert PaymentOwned(db.payments[found.value], db.orders, db.quotes); }
  }

  /** Opening the next payment, or one of another quote. */
  lemma OpeningOnCourse(db: Db, c: Command, quote: nat, amount: int, n: nat, roundUp: bool)
    requires c.InitializeQuotePayment? && Regular(db, c, quote, roundUp)
    requires OnCourse(db, quote, amount, n, roundUp)
    ensures OnCourse(Step(db, c), quote, amount, n, roundUp)
  {
    if Execute(db, c).Commit? {
      var payments, at := Step(db, c).payments, OpenedAt(db, c);
      OpensAt(db, c);
      if c.quote == quote { DueIsNext(db.quotes[quote], c.balanceAllowed, roundUp); }
      forall i | 0 <= i < |payments| && PendingOf(payments[i], quote)
        ensures db.quotes[quote].paid + payments[i].amount == NextPaid(amount, db.quotes[quote].paid, roundUp)
      {
        assert i != at ==> payments[i] == db.payments[i];
      }
    }
  }

  lemma DueIsNext(quote: Quote, allowed: bool, roundUp: bool)
    requires PlanDue(quote, FiftyFifty, allowed).Commit?
    ensures quote.paid + StoredKobo(PlanDue(quote, FiftyFifty, allowed).state, roundUp) ==
            NextPaid(quote.amount, quote.paid, roundUp)
  {}

  /** A webhook that does not credit the quote leaves it undisturbed. */
  lemma WebhookUndisturbed(db: Db, c: Command, quote: nat, roundUp: bool)
    requires c.Webhook? && QuoteExists(db, quote)
    requires Regular(db, c, quote, roundUp) && !CreditsQuote(db, c, quote)
    ensures Undisturbed(db, Step(db, c), quote)
  {}

  /** Crediting the pending payment is the next payment; no other is pending. */
  lemma CreditOnCourse(db: Db, c: Command, quote: nat, amount: int, n: nat, roundUp: bool)
    requires WellFormed(db) && CreditsQuote(db, c, quote) && OnCourse(db, quote, amount, n, roundUp)
    ensures OnCourse(Step(db, c), quote, amount, n + 1, roundUp)
  {
    var i := FindFirst(db.payments, WithReference(c.reference)).value;
    var db' := Step(db, c);
    assert PaymentOwned(db.payments[i], db.orders, db.quotes);
    assert db'.payments == db.payments[i := db.payments[i].(status := PaymentStatus.Paid)];
    assert db'.quotes[quote].paid == db.quotes[quote].paid + db.payments[i].amount;
    forall k | 0 <= k < |db.payments| && k != i ensures !PendingOf(db'.payments[k], quote) {
      assert Apart(db.payments[k], db.payments[i]);
    }
  }

  lemma StepOnCourse(db: Db, c: Command, quote: nat, amount: int, n: nat, roundUp: bool)
    requires WellFormed(db) && Regular(db, c, quote, roundUp) && OnCourse(db, quote, amount, n, roundUp)
    ensures OnCourse(Step(db, c), quote, amount, n + (if CreditsQuote(db, c, quote) then 1 else 0), roundUp)
  {
    if CreditsQuote(db, c, quote) {
      CreditOnCourse(db, c, quote, amount, n, roundUp);
    } else if c.InitializeQuotePayment? {
      OpeningOnCourse(db, c, quote, amount, n, roundUp);
    } else {
      if c.Webhook? {
        WebhookUndisturbed(db, c, quote, roundUp);
      } else if c.InitializePayment? {
        OrderPaymentUndisturbed(db, c, quote);
      } else if c.Expire? || c.CancelPayment? || c.EscalatePayment? || c.RefundPayment? || c.CancelOrder? {
        PaymentCallUndisturbed(db, c, quote);
      } else {
        OtherCallUndisturbed(db, c, quote);
      }
      UndisturbedOnCourse(db, Step(db, c), quote, amount, n, roundUp);
    }
  }

  lemma AllRegularLast(db: Db, commands: seq<Command>, quote: nat, roundUp: bool)
    requires commands != [] && AllRegular(db, commands, quote, roundUp)
    ensures AllRegular(db, commands[..|commands| - 1], quote, roundUp)
    ensures Regular(Run(db, commands[..|commands| - 1]), commands[|commands| - 1], quote, roundUp)
  {
    var n := |commands| - 1;
    forall m | 0 <= m < n ensures Regular(Run(db, commands[..n][..m]), commands[..n][m], quote, roundUp) {
      assert commands[..n][..m] == commands[..m];
    }
  }

  lemma {:induction false} RunOnCourse(db: Db, commands: seq<Command>, quote: nat, amount: int, roundUp: bool)
    requires WellFormed(db) && OnCourse(db, quote, amount, 0, roundUp) && AllRegular(db, commands, quote, roundUp)
    ensures OnCourse(Run(db, commands), quote, amount, CreditsAlong(db, commands, quote), roundUp)
  {
    if commands != [] {
      var n := |commands| - 1;
      AllRegularLast(db, commands, quote, roundUp);
      RunOnCourse(db, commands[..n], quote, amount, roundUp);
      RunKeepsWellFormed(db, commands[..n]);
      StepOnCourse(Run(db, commands[..n]), commands[n], quote, amount, CreditsAlong(db, commands[..n], quote), roundUp);
    }
  }

  /** From a quote with nothing paid and nothing pending, after any run that is regular for it: the credited
      amount is what its number of credits comes to, never more than the quote, and the quote is fully paid if
      and only if that number has reached the bound. */
  lemma SettledInRuns(db: Db, commands: seq<Command>, quote: nat, roundUp: bool)
    requires WellFormed(db) && QuoteExists(db, quote)
    requires db.quotes[quote].paid == 0 && 0 < db.quotes[quote].amount
    requires forall i :: 0 <= i < |db.payments| ==> !PendingOf(db.payments[i], quote)
    requires AllRegular(db, commands, quote, roundUp)
    ensures var amount := db.quotes[quote].amount;
            var now := Run(db, commands);
            var credits := CreditsAlong(db, commands, quote);
            && QuoteExists(now, quote) && now.quotes[quote].amount == amount
            && now.quotes[quote].paid == PaidAfter(amount, credits, roundUp) <= amount
            && (now.quotes[quote].paid == amount <==>
                  PaymentsNeeded(amount, roundUp).Some? && PaymentsNeeded(amount, roundUp).value <= credits)
  {
    RunOnCourse(db, commands, quote, db.quotes[quote].amount, roundUp);
    PaidAfterExact(db.quotes[quote].amount, CreditsAlong(db, commands, quote), roundUp);
  }
}
