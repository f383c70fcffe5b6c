/** How many fifty-fifty payments settle a quote, and the two ways money can be credited too often. */
module Settlement {
  import opened Prelude
  import opened Ledger
  import opened LedgerStructure
  import opened QuoteBook

  /** One round: initialise the fifty-fifty payment that is due, then credit it once. */
  function Round(db: Db, quote: nat, reference: string, now: int, roundUp: bool): Db {
    Step(Step(db, InitializeQuotePayment(quote, FiftyFifty, true, reference, now, roundUp, true)),
         Webhook(reference, Success))
  }

  function Rounds(db: Db, quote: nat, references: seq<string>, now: int, roundUp: bool): Db {
    if references == [] then db
    else Round(Rounds(db, quote, references[..|references| - 1], now, roundUp), quote,
               references[|references| - 1], now, roundUp)
  }

  /** The credited total after one more fifty-fifty payment. */
  function NextPaid(amount: int, paid: int, roundUp: bool): int {
    if 2 * paid >= amount then amount else paid + StoredKobo(amount, roundUp)
  }

  function PaidAfter(amount: int, payments: nat, roundUp: bool): int {
    if payments == 0 then 0 else NextPaid(amount, PaidAfter(amount, payments - 1, roundUp), roundUp)
  }

  predicate Fresh(payments: seq<Payment>, reference: string) { !ReferenceTaken(payments, reference, -1) }

  lemma FreshCommits(db: Db, c: Command)
    requires c.InitializeQuotePayment? && Fresh(db.payments, c.reference) && c.providerUp && QuoteExists(db, c.quote)
    requires PlanDue(db.quotes[c.quote], c.plan, c.balanceAllowed).Commit?
    requires PlanDue(db.quotes[c.quote], c.plan, c.balanceAllowed).state > 0
    ensures Execute(db, c).Commit?
  {
    var first := FindFirst(db.payments, PendingFor(c.quote));
    assert first.Some? ==> !ReferenceTaken(db.payments, c.reference, first.value);
  }

  /** Every reference in `after` was already at the same row in `before`, or is the given one. */
  predicate OnlyNew(before: seq<Payment>, after: seq<Payment>, reference: string) {
    forall k :: 0 <= k < |after| ==>
      after[k].reference == reference || (k < |before| && after[k].reference == before[k].reference)
  }

  /** This row is the only one with the reference. */
  predicate Sole(payments: seq<Payment>, at: nat, reference: string) {
    && at < |payments| && payments[at].reference == reference
    && forall k :: 0 <= k < |payments| && k != at ==> payments[k].reference != reference
  }

  lemma SoleIsFound(payments: seq<Payment>, at: nat, reference: string)
    requires Sole(payments, at, reference)
    ensures FindFirst(payments, WithReference(reference)) == Some(at)
  {
    assert WithReference(reference)(payments[at]);
  }

  lemma ReusedRow(payments: seq<Payment>, at: nat, row: Payment)
    requires at < |payments| && Fresh(payments, row.reference)
    ensures Sole(payments[at := row], at, row.reference)
    ensures OnlyNew(payments, payments[at := row], row.reference)
  {
    forall k | 0 <= k < |payments| ensures payments[k].reference != row.reference {}
  }

  lemma AppendedRow(payments: seq<Payment>, row: Payment)
    requires Fresh(payments, row.reference)
    ensures Sole(payments + [row], |payments|, row.reference)
    ensures OnlyNew(payments, payments + [row], row.reference)
  {
    forall k | 0 <= k < |payments| ensures payments[k].reference != row.reference {}
  }

  /** The row an opened payment is written to: the pending one of its quote, or a new last one. */
  function OpenedAt(db: Db, c: Command): nat
    requires c.InitializeQuotePayment?
  {
    match FindFirst(db.payments, PendingFor(c.quote))
    case Some(i) => i
    case None => |db.payments|
  }

  lemma OpensAt(db: Db, c: Command)
    requires c.InitializeQuotePayment? && Execute(db, c).Commit?
    ensures var at := OpenedAt(db, c);
            var payments := Step(db, c).payments;
            && at < |payments| && payments[at].reference == c.reference
            && payments[at].status.Pending? && payments[at].quote == Some(c.quote)
            && payments[at].amount == StoredKobo(PlanDue(db.quotes[c.quote], c.plan, c.balanceAllowed).state, c.roundUp)
            && payments == if at < |db.payments| then db.payments[at := payments[at]] else db.payments + [payments[at]]
  {}

  /** Opening a payment under a fresh reference leaves it pending, findable, and the only new reference. */
  lemma OpensPayment(db: Db, c: Command)
    requires c.InitializeQuotePayment? && Fresh(db.payments, c.reference) && Execute(db, c).Commit?
    ensures var payments := Step(db, c).payments;
            var found := FindFirst(payments, WithReference(c.reference));
            && found.Some?
            && payments[found.value].status.Pending? && payments[found.value].quote == Some(c.quote)
            && payments[found.value].amount ==
               StoredKobo(PlanDue(db.quotes[c.quote], c.plan, c.balanceAllowed).state, c.roundUp)
            && OnlyNew(db.payments, payments, c.reference)
  {
    var payments, at := Step(db, c).payments, OpenedAt(db, c);
    OpensAt(db, c);
    if at < |db.payments| {
      ReusedRow(db.payments, at, payments[at]);
    } else {
      AppendedRow(db.payments, payments[at]);
    }
    SoleIsFound(payments, at, c.reference);
  }

  /** Crediting the pending payment of a quote adds its amount and nothing else. */
  lemma CreditsPending(db: Db, quote: nat, reference: string)
    requires WellFormed(db) && AllBalanced(db) && QuoteExists(db, quote)
    requires var found := FindFirst(db.payments, WithReference(reference));
             found.Some? && db.payments[found.value].status.Pending? && db.payments[found.value].quote == Some(quote)
    ensures var db' := Step(db, Webhook(reference, Success));
            && AllBalanced(db') && QuoteExists(db', quote)
            && db'.quotes[quote].amount == db.quotes[quote].amount
            && db'.quotes[quote].paid == db.quotes[quote].paid +
               db.payments[FindFirst(db.payments, WithReference(reference)).value].amount
            && |db'.payments| == |db.payments|
            && forall k :: 0 <= k < |db.payments| ==> db'.payments[k].reference == db.payments[k].reference
  {
    var i := FindFirst(db.payments, WithReference(reference)).value;
    assert PaymentOwned(db.payments[i], db.orders, db.quotes);
    StepBalancedExactly(db, Webhook(reference, Success));
  }

  /** What opening a fifty-fifty payment leaves behind, for a quote with something still due. */
  lemma OpensRound(db: Db, c: Command)
    requires WellFormed(db) && AllBalanced(db) && c.InitializeQuotePayment? && Fresh(db.payments, c.reference)
    requires c.plan.FiftyFifty? && c.balanceAllowed && c.providerUp && QuoteExists(db, c.quote)
    requires 0 <= db.quotes[c.quote].paid < db.quotes[c.quote].amount
    ensures var mid := Step(db, c);
            var found := FindFirst(mid.payments, WithReference(c.reference));
            && WellFormed(mid) && AllBalanced(mid) && QuoteExists(mid, c.quote)
            && mid.quotes[c.quote].amount == db.quotes[c.quote].amount
            && mid.quotes[c.quote].paid == db.quotes[c.quote].paid
            && found.Some?
            && mid.payments[found.value].status.Pending? && mid.payments[found.value].quote == Some(c.quote)
            && db.quotes[c.quote].paid + mid.payments[found.value].amount ==
               NextPaid(db.quotes[c.quote].amount, db.quotes[c.quote].paid, c.roundUp)
            && OnlyNew(db.payments, mid.payments, c.reference)
  {
    StepKeepsWellFormed(db, c);
    FreshCommits(db, c);
    InitializeQuoteBalanced(db, c);
    OpensPayment(db, c);
  }

  /** A round on a quote that is fully paid changes nothing. */
  lemma IdleRound(db: Db, quote: nat, reference: string, now: int, roundUp: bool)
    requires QuoteExists(db, quote) && Fresh(db.payments, reference)
    requires db.quotes[quote].paid == db.quotes[quote].amount && 0 < db.quotes[quote].amount
    ensures Round(db, quote, reference, now, roundUp) == db
  {
    assert Step(db, InitializeQuotePayment(quote, FiftyFifty, true, reference, now, roundUp, true)) == db;
    assert FindFirst(db.payments, WithReference(reference)).None?;
  }

  lemma RoundCredits(db: Db, quote: nat, reference: string, now: int, roundUp: bool)
    requires WellFormed(db) && AllBalanced(db) && QuoteExists(db, quote) && Fresh(db.payments, reference)
    requires 0 <= db.quotes[quote].paid <= db.quotes[quote].amount && 0 < db.quotes[quote].amount
    ensures var db' := Round(db, quote, reference, now, roundUp);
            && WellFormed(db') && AllBalanced(db') && QuoteExists(db', quote)
            && db'.quotes[quote].amount == db.quotes[quote].amount
            && db'.quotes[quote].paid == NextPaid(db.quotes[quote].amount, db.quotes[quote].paid, roundUp)
            && OnlyNew(db.payments, db'.payments, reference)
  {
    if db.quotes[quote].paid < db.quotes[quote].amount {
      var c := InitializeQuotePayment(quote, FiftyFifty, true, reference, now, roundUp, true);
      OpensRound(db, c);
      CreditAfterOpening(db, Step(db, c), quote, reference);
    } else {
      IdleRound(db, quote, reference, now, roundUp);
    }
  }

  lemma CreditAfterOpening(db: Db, mid: Db, quote: nat, reference: string)
    requires WellFormed(mid) && AllBalanced(mid) && QuoteExists(mid, quote)
    requires OnlyNew(db.payments, mid.payments, reference)
    requires var found := FindFirst(mid.payments, WithReference(reference));
             found.Some? && mid.payments[found.value].status.Pending? && mid.payments[found.value].quote == Some(quote)
    ensures var db' := Step(mid, Webhook(reference, Success));
            && WellFormed(db') && AllBalanced(db') && QuoteExists(db', quote)
            && db'.quotes[quote].amount == mid.quotes[quote].amount
            && db'.quotes[quote].paid == mid.quotes[quote].paid +
               mid.payments[FindFirst(mid.payments, WithReference(reference)).value].amount
            && OnlyNew(db.payments, db'.payments, reference)
  {
    StepKeepsWellFormed(mid, Webhook(reference, Success));
    CreditsPending(mid, quote, reference);
  }

  lemma NeverOvershoots(amount: int, paid: int, roundUp: bool)
    requires 0 <= paid <= amount && 0 < amount
    ensures paid <= NextPaid(amount, paid, roundUp) <= amount
  {
    StoredKoboBounds(amount, roundUp);
  }

  /** On the whole database, n rounds credit exactly what n steps of the arithmetic say. */
  lemma {:induction false} RoundsCredit(db: Db, quote: nat, references: seq<string>, now: int, roundUp: bool)
    requires WellFormed(db) && AllBalanced(db) && QuoteExists(db, quote)
    requires db.quotes[quote].paid == 0 && 0 < db.quotes[quote].amount
    requires forall i :: 0 <= i < |references| ==> Fresh(db.payments, references[i])
    requires forall i, j :: 0 <= i < j < |references| ==> references[i] != references[j]
    ensures var db' := Rounds(db, quote, references, now, roundUp);
            && WellFormed(db') && AllBalanced(db') && QuoteExists(db', quote)
            && db'.quotes[quote].amount == db.quotes[quote].amount
            && db'.quotes[quote].paid == PaidAfter(db.quotes[quote].amount, |references|, roundUp)
            && 0 <= db'.quotes[quote].paid <= db.quotes[quote].amount
            && forall r :: r !in references && Fresh(db.payments, r) ==> Fresh(db'.payments, r)
  {
    if references != [] {
      var n := |references| - 1;
      RoundsCredit(db, quote, references[..n], now, roundUp);
      var before := Rounds(db, quote, references[..n], now, roundUp);
      assert references[n] !in references[..n];
      RoundCredits(before, quote, references[n], now, roundUp);
      NeverOvershoots(db.quotes[quote].amount, before.quotes[quote].paid, roundUp);
    }
  }

  /** How many payments settle an amount; one kobo halved and rounded down never does. */
  function PaymentsNeeded(amount: int, roundUp: bool): Option<nat> {
    if amount % 2 == 0 then Some(2)
    else if roundUp then Some(if amount == 1 then 1 else 2)
    else if amount == 1 then None
    else Some(3)
  }

  lemma {:induction false} PaidAfterExact(amount: int, payments: nat, roundUp: bool)
    requires 0 < amount
    ensures 0 <= PaidAfter(amount, payments, roundUp) <= amount
    ensures PaidAfter(amount, payments, roundUp) == amount <==>
            PaymentsNeeded(amount, roundUp).Some? && PaymentsNeeded(amount, roundUp).value <= payments
    ensures amount == 1 && !roundUp ==> PaidAfter(amount, payments, roundUp) == 0
  {
    if payments > 0 {
      PaidAfterExact(amount, payments - 1, roundUp);
      NeverOvershoots(amount, PaidAfter(amount, payments - 1, roundUp), roundUp);
      if payments == 2 {
        assert PaidAfter(amount, 1, roundUp) == StoredKobo(amount, roundUp);
      }
      if payments == 3 {
        assert PaidAfter(amount, 1, roundUp) == StoredKobo(amount, roundUp);
        assert PaidAfter(amount, 2, roundUp) == NextPaid(amount, StoredKobo(amount, roundUp), roundUp);
      }
    }
  }

  /** A quote is fully paid after n credited fifty-fifty payments exactly when n reaches the bound:
      two when half a kobo is rounded up, three when it is rounded down, and never beyond its amount. */
  lemma SettledExactly(db: Db, quote: nat, references: seq<string>, now: int, roundUp: bool)
    requires WellFormed(db) && AllBalanced(db) && QuoteExists(db, quote)
    requires db.quotes[quote].paid == 0 && 0 < db.quotes[quote].amount
    requires forall i :: 0 <= i < |references| ==> Fresh(db.payments, references[i])
    requires forall i, j :: 0 <= i < j < |references| ==> references[i] != references[j]
    ensures var amount := db.quotes[quote].amount;
            var paid := Rounds(db, quote, references, now, roundUp).quotes;
            && quote < |paid|
            && paid[quote].paid <= amount
            && (paid[quote].paid == amount <==>
                  PaymentsNeeded(amount, roundUp).Some? && PaymentsNeeded(amount, roundUp).value <= |references|)
            && (roundUp && |references| >= 2 ==> paid[quote].paid == amount)
            && (amount >= 2 && |references| >= 3 ==> paid[quote].paid == amount)
  {
    RoundsCredit(db, quote, references, now, roundUp);
    PaidAfterExact(db.quotes[quote].amount, |references|, roundUp);
  }

  // ---------------------------------------------------------------- where the money goes wrong

  lemma RunAppend(db: Db, commands: seq<Command>, c: Command)
    ensures Run(db, commands + [c]) == Step(Run(db, commands), c)
  {
    assert (commands + [c])[..|commands|] == commands;
  }

  /** The database with one quote of a hundred kobo and the given payments for it. */
  function Books(paid: int, status: QuoteStatus, payments: seq<Payment>): Db {
    Db([], [], payments, [Quote(100, paid, status, Some(Full))], true)
  }

  function Charge(reference: string, status: PaymentStatus): Payment {
    Payment(None, Some(0), reference, 100, status, 0)
  }

  function Open(reference: string): Command { InitializeQuotePayment(0, Full, true, reference, 0, true, true) }

  lemma FirstPaymentFound(db: Db, reference: string)
    requires db.payments != [] && db.payments[0].reference == reference
    ensures FindFirst(db.payments, WithReference(reference)) == Some(0)
  {
    assert WithReference(reference)(db.payments[0]);
  }

  /** A quote is issued and its full payment opened. */
  function OpenedBy(reference: string): seq<Command> { [IssueQuote(100), Open(reference)] }

  lemma Opened(reference: string)
    ensures Run(Empty(true), OpenedBy(reference)) ==
            Books(0, QuoteStatus.Issued, [Charge(reference, PaymentStatus.Pending)])
  {
    RunAppend(Empty(true), [], IssueQuote(100));
    assert [] + [IssueQuote(100)] == [IssueQuote(100)];
    assert Run(Empty(true), [IssueQuote(100)]) == Db([], [], [], [Quote(100, 0, QuoteStatus.Issued, None)], true);
    RunAppend(Empty(true), [IssueQuote(100)], Open(reference));
    assert [IssueQuote(100)] + [Open(reference)] == OpenedBy(reference);
    OpensFirst(Run(Empty(true), [IssueQuote(100)]), reference);
  }

  lemma OpensFirst(db: Db, reference: string)
    requires db == Db([], [], [], [Quote(100, 0, QuoteStatus.Issued, None)], true)
    ensures Step(db, Open(reference)) == Books(0, QuoteStatus.Issued, [Charge(reference, PaymentStatus.Pending)])
  {
    assert db.quotes[0 := db.quotes[0].(plan := Some(Full))] == [Quote(100, 0, QuoteStatus.Issued, Some(Full))];
    assert [] + [Charge(reference, PaymentStatus.Pending)] == [Charge(reference, PaymentStatus.Pending)];
  }

  /** A success for the only payment of the quote, not yet settled, is credited whatever was credited before. */
  lemma CreditsOnly(db: Db, reference: string, paid: int, quoteStatus: QuoteStatus, status: PaymentStatus)
    requires db == Books(paid, quoteStatus, [Charge(reference, status)]) && !Settled(status) && 0 <= paid
    ensures Step(db, Webhook(reference, Success)) ==
            Books(paid + 100, QuoteStatus.Paid, [Charge(reference, PaymentStatus.Paid)])
  {
    FirstPaymentFound(db, reference);
    assert db.payments[0 := Charge(reference, PaymentStatus.Paid)] == [Charge(reference, PaymentStatus.Paid)];
    assert db.quotes[0 := Credited(db.quotes[0], 100)] == [Quote(100, paid + 100, QuoteStatus.Paid, Some(Full))];
  }

  lemma Escalates(db: Db, reference: string)
    requires db == Books(100, QuoteStatus.Paid, [Charge(reference, PaymentStatus.Paid)])
    ensures Step(db, EscalatePayment(0)) == Books(100, QuoteStatus.Paid, [Charge(reference, PaymentStatus.Escalated)])
  {
    assert db.payments[0 := Charge(reference, PaymentStatus.Escalated)] == [Charge(reference, PaymentStatus.Escalated)];
  }

  lemma SingleSum(charge: Payment, f: Payment -> int)
    ensures Sum([charge], f) == f(charge)
  {
    assert [charge] == [] + [charge];
    SumAppend([], charge, f);
  }

  lemma OneChargeBalanced(reference: string)
    ensures var db := Books(100, QuoteStatus.Paid, [Charge(reference, PaymentStatus.Paid)]);
            WellFormed(db) && AllBalanced(db)
  {
    SingleSum(Charge(reference, PaymentStatus.Paid), PaidTo(0));
    SingleSum(Charge(reference, PaymentStatus.Paid), PendingTo(0));
  }

  lemma TwoChargesBalanced(failed: string, other: string)
    requires failed != other
    ensures var db := Books(100, QuoteStatus.Paid,
                            [Charge(failed, PaymentStatus.Failed), Charge(other, PaymentStatus.Paid)]);
            WellFormed(db) && AllBalanced(db) && PendingSum(db, 0) == 0
  {
    var first, second := Charge(failed, PaymentStatus.Failed), Charge(other, PaymentStatus.Paid);
    assert [first, second] == [first] + [second];
    SingleSum(first, PaidTo(0));
    SingleSum(first, PendingTo(0));
    SumAppend([first], second, PaidTo(0));
    SumAppend([first], second, PendingTo(0));
  }

  /** Escalating a paid payment reopens it: from the empty ledger, a quote of 100 is paid in full, its payment is
      escalated, and the provider's next delivery of the same charge is credited again. */
  lemma EscalatedPaymentCreditedTwice(reference: string)
    ensures var paid := OpenedBy(reference) + [Webhook(reference, Success)];
            && Run(Empty(true), paid).quotes == [Quote(100, 100, QuoteStatus.Paid, Some(Full))]
            && WellFormed(Run(Empty(true), paid)) && AllBalanced(Run(Empty(true), paid))
            && !KeepsBalance(Run(Empty(true), paid), EscalatePayment(0))
            && Run(Empty(true), paid + [EscalatePayment(0)] + [Webhook(reference, Success)]).quotes ==
               [Quote(100, 200, QuoteStatus.Paid, Some(Full))]
  {
    var paid := OpenedBy(reference) + [Webhook(reference, Success)];
    Opened(reference);
    RunAppend(Empty(true), OpenedBy(reference), Webhook(reference, Success));
    CreditsOnly(Run(Empty(true), OpenedBy(reference)), reference, 0, QuoteStatus.Issued, PaymentStatus.Pending);
    OneChargeBalanced(reference);
    RunAppend(Empty(true), paid, EscalatePayment(0));
    Escalates(Run(Empty(true), paid), reference);
    RunAppend(Empty(true), paid + [EscalatePayment(0)], Webhook(reference, Success));
    CreditsOnly(Run(Empty(true), paid + [EscalatePayment(0)]), reference, 100, QuoteStatus.Paid,
                PaymentStatus.Escalated);
  }

  lemma Fails(db: Db, reference: string)
    requires db == Books(0, QuoteStatus.Issued, [Charge(reference, PaymentStatus.Pending)])
    ensures Step(db, Webhook(reference, Failure)) ==
            Books(0, QuoteStatus.Issued, [Charge(reference, PaymentStatus.Failed)])
  {
    FirstPaymentFound(db, reference);
    assert db.payments[0 := Charge(reference, PaymentStatus.Failed)] == [Charge(reference, PaymentStatus.Failed)];
  }

  lemma OpensReplacement(db: Db, failed: string, other: string)
    requires db == Books(0, QuoteStatus.Issued, [Charge(failed, PaymentStatus.Failed)]) && failed != other
    ensures Step(db, Open(other)) ==
            Books(0, QuoteStatus.Issued, [Charge(failed, PaymentStatus.Failed), Charge(other, PaymentStatus.Pending)])
  {
    assert db.quotes[0 := db.quotes[0].(plan := Some(Full))] == db.quotes;
    assert db.payments + [Charge(other, PaymentStatus.Pending)] ==
           [Charge(failed, PaymentStatus.Failed), Charge(other, PaymentStatus.Pending)];
    assert FindFirst(db.payments, PendingFor(0)).None?;
  }

  lemma CreditsReplacement(db: Db, failed: string, other: string)
    requires db == Books(0, QuoteStatus.Issued,
                         [Charge(failed, PaymentStatus.Failed), Charge(other, PaymentStatus.Pending)])
    requires failed != other
    ensures Step(db, Webhook(other, Success)) ==
            Books(100, QuoteStatus.Paid, [Charge(failed, PaymentStatus.Failed), Charge(other, PaymentStatus.Paid)])
  {
    assert WithReference(other)(db.payments[1]) && !WithReference(other)(db.payments[0]);
    assert FindFirst(db.payments, WithReference(other)) == Some(1);
    assert db.payments[1 := Charge(other, PaymentStatus.Paid)] ==
           [Charge(failed, PaymentStatus.Failed), Charge(other, PaymentStatus.Paid)];
    assert db.quotes[0 := Credited(db.quotes[0], 100)] == [Quote(100, 100, QuoteStatus.Paid, Some(Full))];
  }

  lemma CreditsLate(db: Db, failed: string, other: string)
    requires db == Books(100, QuoteStatus.Paid,
                         [Charge(failed, PaymentStatus.Failed), Charge(other, PaymentStatus.Paid)])
    ensures Step(db, Webhook(failed, Success)).quotes == [Quote(100, 200, QuoteStatus.Paid, Some(Full))]
  {
    FirstPaymentFound(db, failed);
    assert db.quotes[0 := Credited(db.quotes[0], 100)] == [Quote(100, 200, QuoteStatus.Paid, Some(Full))];
  }

  function ReplacedBy(failed: string, other: string): seq<Command> {
    OpenedBy(failed) + [Webhook(failed, Failure)] + [Open(other)]
  }

  lemma Replaced(failed: string, other: string)
    requires failed != other
    ensures Run(Empty(true), ReplacedBy(failed, other)) ==
            Books(0, QuoteStatus.Issued, [Charge(failed, PaymentStatus.Failed), Charge(other, PaymentStatus.Pending)])
  {
    Opened(failed);
    RunAppend(Empty(true), OpenedBy(failed), Webhook(failed, Failure));
    Fails(Run(Empty(true), OpenedBy(failed)), failed);
    RunAppend(Empty(true), OpenedBy(failed) + [Webhook(failed, Failure)], Open(other));
    OpensReplacement(Run(Empty(true), OpenedBy(failed) + [Webhook(failed, Failure)]), failed, other);
  }

  /** A failed payment whose success arrives late is credited on top of the one that replaced it: from the empty
      ledger, a quote of 100 ends up with 200 credited. */
  lemma LateSuccessOvershoots(failed: string, other: string)
    requires failed != other
    ensures var paid := ReplacedBy(failed, other) + [Webhook(other, Success)];
            && Run(Empty(true), paid).quotes == [Quote(100, 100, QuoteStatus.Paid, Some(Full))]
            && WellFormed(Run(Empty(true), paid)) && AllBalanced(Run(Empty(true), paid))
            && !KeepsBalance(Run(Empty(true), paid), Webhook(failed, Success))
            && Run(Empty(true), paid + [Webhook(failed, Success)]).quotes ==
               [Quote(100, 200, QuoteStatus.Paid, Some(Full))]
  {
    var paid := ReplacedBy(failed, other) + [Webhook(other, Success)];
    Replaced(failed, other);
    RunAppend(Empty(true), ReplacedBy(failed, other), Webhook(other, Success));
    CreditsReplacement(Run(Empty(true), ReplacedBy(failed, other)), failed, other);
    TwoChargesBalanced(failed, other);
    FirstPaymentFound(Run(Empty(true), paid), failed);
    assert !CreditSafe(Run(Empty(true), paid), failed);
    RunAppend(Empty(true), paid, Webhook(failed, Success));
    CreditsLate(Run(Empty(true), paid), failed, other);
  }
}
