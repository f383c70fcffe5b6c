/** The life of one payment row over any run: how often it was charged, refunded and overridden. */
module PaymentBook {
  import opened Prelude
  import opened Ledger
  import opened LedgerStructure
  import opened LedgerEffects

  predicate PaidAt(db: Db, payment: nat) { payment < |db.payments| && db.payments[payment].status.Paid? }

  /** A successful charge for the payment's reference commits while the payment is open. */
  predicate Charged(db: Db, c: Command, payment: nat) {
    && c.Webhook? && c.event.Success? && Execute(db, c).Commit?
    && payment < |db.payments| && db.payments[payment].reference == c.reference
    && !db.payments[payment].status.Paid? && !db.payments[payment].status.Cancelled?
  }

  predicate RefundCommits(db: Db, c: Command, payment: nat) {
    c.RefundPayment? && c.payment == payment && Execute(db, c).Commit?
  }

  /** The payment is paid, and a cancellation, an escalation or a new opening for its order takes that back. */
  predicate Overridden(db: Db, c: Command, payment: nat) {
    && PaidAt(db, payment) && Execute(db, c).Commit?
    && ((c.CancelPayment? && c.payment == payment) || (c.EscalatePayment? && c.payment == payment) ||
        (c.InitializePayment? && db.payments[payment].order == Some(c.order)))
  }

  function Charges(db: Db, commands: seq<Command>, payment: nat): nat {
    if commands == [] then 0
    else
      var n := |commands| - 1;
      Charges(db, commands[..n], payment) + if Charged(Run(db, commands[..n]), commands[n], payment) then 1 else 0
  }

  function Refunds(db: Db, commands: seq<Command>, payment: nat): nat {
    if commands == [] then 0
    else
      var n := |commands| - 1;
      Refunds(db, commands[..n], payment) + if RefundCommits(Run(db, commands[..n]), commands[n], payment) then 1 else 0
  }

  function Overrides(db: Db, commands: seq<Command>, payment: nat): nat {
    if commands == [] then 0
    else
      var n := |commands| - 1;
      Overrides(db, commands[..n], payment) + if Overridden(Run(db, commands[..n]), commands[n], payment) then 1 else 0
  }

  function Count(b: bool): nat { if b then 1 else 0 }

  /** Of being charged, refunded and overridden, a step does what turns the payment paid, or no longer paid. */
  predicate Accounts(db: Db, c: Command, payment: nat) {
    Count(PaidAt(db, payment)) + Count(Charged(db, c, payment)) ==
    Count(PaidAt(Step(db, c), payment)) + Count(RefundCommits(db, c, payment)) + Count(Overridden(db, c, payment))
  }

  lemma WebhookAccounts(db: Db, c: Command, payment: nat)
    requires WellFormed(db) && c.Webhook?
    ensures Accounts(db, c, payment)
  {
    var found := FindFirst(db.payments, WithReference(c.reference));
    OneForEach(db, 0, 0, c.reference);
    if payment < |db.payments| {
      assert db.payments[payment].reference == c.reference <==> found == Some(payment);
    }
    if found.Some? && !db.payments[found.value].status.Paid? && !db.payments[found.value].status.Cancelled? {
      if c.event.Success? && Execute(db, c).Commit? {
        ChargeWrites(db, c.reference, found.value);
      } else {
        FailureWrites(db, c.reference, found.value);
      }
    }
  }

  lemma RefundAccounts(db: Db, c: Command, payment: nat)
    requires WellFormed(db) && c.RefundPayment?
    ensures Accounts(db, c, payment)
  {
    RefundExact(db, c.payment);
  }

  lemma OpeningAccounts(db: Db, c: Command, payment: nat)
    requires WellFormed(db) && (c.InitializePayment? || c.InitializeQuotePayment?) && Execute(db, c).Commit?
    ensures Accounts(db, c, payment)
  {
    if c.InitializePayment? {
      var found := FindFirst(db.payments, ForOrder(c.order));
      OneForEach(db, c.order, 0, "");
      if payment < |db.payments| {
        assert db.payments[payment].order == Some(c.order) <==> found == Some(payment);
      }
    }
  }

  lemma QuietAccounts(db: Db, c: Command, payment: nat)
    requires !c.Webhook? && !c.RefundPayment? && !c.InitializePayment? && !c.InitializeQuotePayment?
    ensures Accounts(db, c, payment)
  {
    if c.Expire? { ExpiryWrites(db, c.now); }
    if c.CancelPayment? { OverrideWrites(db, c.payment); }
    if c.EscalatePayment? { OverrideWrites(db, c.payment); }
  }

  lemma StepAccounts(db: Db, c: Command, payment: nat)
    requires WellFormed(db)
    ensures Accounts(db, c, payment)
  {
    if c.Webhook? {
      WebhookAccounts(db, c, payment);
    } else if c.RefundPayment? {
      RefundAccounts(db, c, payment);
    } else if c.InitializePayment? || c.InitializeQuotePayment? {
      if Execute(db, c).Commit? { OpeningAccounts(db, c, payment); }
    } else {
      QuietAccounts(db, c, payment);
    }
  }

  /** Over any run the charges of a payment, and the one it may have had before, are those refunded, those overridden,
      and the one it may still have. */
  lemma {:induction false} ChargesAccounted(db: Db, commands: seq<Command>, payment: nat)
    requires WellFormed(db)
    ensures Count(PaidAt(db, payment)) + Charges(db, commands, payment) ==
            Count(PaidAt(Run(db, commands), payment)) + Refunds(db, commands, payment) +
            Overrides(db, commands, payment)
  {
    if commands != [] {
      var n := |commands| - 1;
      RunKeepsWellFormed(db, commands[..n]);
      ChargesAccounted(db, commands[..n], payment);
      StepAccounts(Run(db, commands[..n]), commands[n], payment);
    }
  }

  /** From the empty ledger a payment is refunded at most as often as a successful charge reached it. */
  lemma RefundedAtMostCharged(commands: seq<Command>, payment: nat, alertRaises: bool)
    ensures Refunds(Empty(alertRaises), commands, payment) <= Charges(Empty(alertRaises), commands, payment)
  {
    ChargesAccounted(Empty(alertRaises), commands, payment);
  }
}
