/** Openings and charges of quote payments, reviews of quotes, cancellation, expiry and everything else the ledger
    does, overlapping. An opening locks its quote and a charge locks its payment row; whoever writes a row that
    another has locked waits. But an opening reads the pending payment, and a charge or a review the quote, without a
    lock, and saves the whole row later. */
module QuoteRace {
  import opened Prelude
  import opened Ledger
  import opened LedgerStructure
  import opened QuoteBook
  import opened Settlement
  import LedgerRuns
  import C = CreditRace
  import P = PaymentRace

  /** A transaction between its reads and its commit. */
  datatype Phase = Opening(opening: P.Opening) | Charging(credit: C.Credit) | Reviewing(quote: nat, seen: Quote)

  datatype World = World(db: Db, inflight: map<nat, Phase>)

  datatype Action =
    | BeginOpening(tx: nat, call: Command)
    | FinishOpening(tx: nat, providerUp: bool)
    | BeginCharge(tx: nat, reference: string)
    | FinishCharge(tx: nat)
    | BeginReview(tx: nat, quote: nat)
    | FinishReview(tx: nat, status: QuoteStatus)
    | GiveUp(tx: nat)
    | Other(one: Command)

  predicate IsOpening(w: World, tx: nat) { tx in w.inflight && w.inflight[tx].Opening? }
  predicate IsCharging(w: World, tx: nat) { tx in w.inflight && w.inflight[tx].Charging? }
  predicate IsReviewing(w: World, tx: nat) { tx in w.inflight && w.inflight[tx].Reviewing? }

  predicate QuoteLocked(w: World, quote: int) {
    exists tx :: tx in w.inflight && w.inflight[tx].Opening? && w.inflight[tx].opening.quote == quote
  }

  predicate PaymentLocked(w: World, payment: int) {
    exists tx :: tx in w.inflight && w.inflight[tx].Charging? && w.inflight[tx].credit.payment == payment
  }

  // ---------------------------------------------------------------- steps

  function BeginOpeningStep(w: World, tx: nat, c: Command): World {
    if !c.InitializeQuotePayment? || tx in w.inflight || !QuoteExists(w.db, c.quote) || QuoteLocked(w, c.quote) then w
    else
      match PlanDue(w.db.quotes[c.quote], c.plan, c.balanceAllowed)
      case Abort(_) => w
      case Commit(due) =>
        if due <= 0 then w
        else
          var found := FindFirst(w.db.payments, PendingFor(c.quote));
          w.(inflight := w.inflight[tx := Opening(P.Opening(c.quote, c.plan, found, P.RowToSave(w.db, c, due)))])
  }

  /** The row the opening has read is still there, its reference is free, and the provider answers. */
  predicate Saves(db: Db, o: P.Opening, providerUp: bool) {
    && QuoteExists(db, o.quote) && providerUp
    && (o.found.Some? ==> PaymentExists(db, o.found.value))
    && !ReferenceTaken(db.payments, o.row.reference, if o.found.Some? then o.found.value else -1)
  }

  function SaveOpening(db: Db, o: P.Opening): Db
    requires o.quote < |db.quotes| && (o.found.Some? ==> o.found.value < |db.payments|)
  {
    db.(payments := if o.found.Some? then db.payments[o.found.value := o.row] else db.payments + [o.row],
        quotes := db.quotes[o.quote := db.quotes[o.quote].(plan := Some(o.plan))])
  }

  function FinishOpeningStep(w: World, tx: nat, providerUp: bool): World {
    if !IsOpening(w, tx) then w
    else
      var o := w.inflight[tx].opening;
      if o.found.Some? && PaymentLocked(w, o.found.value) then w
      else if !Saves(w.db, o, providerUp) then w.(inflight := w.inflight - {tx})
      else World(SaveOpening(w.db, o), w.inflight - {tx})
  }

  function BeginChargeStep(w: World, tx: nat, reference: string): World {
    match FindFirst(w.db.payments, WithReference(reference))
    case None => w
    case Some(i) =>
      if tx in w.inflight || PaymentLocked(w, i) || !C.Open(w.db, i) then w
      else w.(inflight := w.inflight[tx := Charging(C.Credit(i, w.db.quotes[C.QuoteOf(w.db, i)]))])
  }

  /** The charge commits: it does not wait for an opening of its quote. */
  predicate Commits(w: World, tx: nat) {
    && IsCharging(w, tx) && C.Open(w.db, w.inflight[tx].credit.payment)
    && !QuoteLocked(w, C.QuoteOf(w.db, w.inflight[tx].credit.payment))
  }

  function FinishChargeStep(w: World, tx: nat): World {
    if !Commits(w, tx) then w else World(C.SaveCredit(w.db, w.inflight[tx].credit), w.inflight - {tx})
  }

  function BeginReviewStep(w: World, tx: nat, quote: nat): World {
    if tx in w.inflight || !QuoteExists(w.db, quote) then w
    else w.(inflight := w.inflight[tx := Reviewing(quote, w.db.quotes[quote])])
  }

  function SaveReview(db: Db, quote: nat, seen: Quote, status: QuoteStatus): Db
    requires quote < |db.quotes|
  {
    db.(quotes := db.quotes[quote := seen.(status := status)])
  }

  /** The review commits: its outcome is one of a review, and no opening has locked the quote. */
  predicate Reviews(w: World, tx: nat, status: QuoteStatus) {
    && IsReviewing(w, tx) && w.inflight[tx].quote < |w.db.quotes| && !status.Paid? && !status.PartiallyPaid?
    && !QuoteLocked(w, w.inflight[tx].quote)
  }

  function FinishReviewStep(w: World, tx: nat, status: QuoteStatus): World {
    if !Reviews(w, tx, status) then w
    else World(SaveReview(w.db, w.inflight[tx].quote, w.inflight[tx].seen, status), w.inflight - {tx})
  }

  /** The calls that run in the stages above. */
  predicate Staged(db: Db, c: Command) {
    || c.InitializeQuotePayment? || c.ReviewQuote?
    || (c.Webhook? && c.event.Success? &&
        match FindFirst(db.payments, WithReference(c.reference))
        case None => false
        case Some(i) => db.payments[i].quote.Some?)
  }

  /** The call would write a row that is locked. */
  predicate Waits(w: World, c: Command) {
    exists tx :: tx in w.inflight && WritesLocked(w.db, Step(w.db, c), w.inflight[tx])
  }

  predicate WritesLocked(db: Db, db': Db, phase: Phase) {
    match phase
    case Opening(o) => o.quote < |db.quotes| && o.quote < |db'.quotes| && db'.quotes[o.quote] != db.quotes[o.quote]
    case Charging(c) =>
      c.payment < |db.payments| && c.payment < |db'.payments| && db'.payments[c.payment] != db.payments[c.payment]
    case Reviewing(_, _) => false
  }

  function Act(w: World, a: Action): World {
    match a
    case BeginOpening(tx, c) => BeginOpeningStep(w, tx, c)
    case FinishOpening(tx, providerUp) => FinishOpeningStep(w, tx, providerUp)
    case BeginCharge(tx, reference) => BeginChargeStep(w, tx, reference)
    case FinishCharge(tx) => FinishChargeStep(w, tx)
    case BeginReview(tx, quote) => BeginReviewStep(w, tx, quote)
    case FinishReview(tx, status) => FinishReviewStep(w, tx, status)
    case GiveUp(tx) => w.(inflight := w.inflight - {tx})
    case Other(c) => if Staged(w.db, c) || Waits(w, c) then w else w.(db := Step(w.db, c))
  }

  function Race(w: World, actions: seq<Action>): World {
    if actions == [] then w else Act(Race(w, actions[..|actions| - 1]), actions[|actions| - 1])
  }

  /** Undisturbed, an opening, a charge and a review are the ledger's own transactions. */
  lemma UndisturbedOpening(db: Db, c: Command)
    requires c.InitializeQuotePayment?
    ensures Act(Act(World(db, map[]), BeginOpening(0, c)), FinishOpening(0, c.providerUp)).db == Step(db, c)
  {}

  lemma UndisturbedCharge(db: Db, reference: string, i: nat)
    requires FindFirst(db.payments, WithReference(reference)) == Some(i) && C.Open(db, i)
    ensures Act(Act(World(db, map[]), BeginCharge(0, reference)), FinishCharge(0)).db ==
            Step(db, Webhook(reference, Success))
  {
    var read := Act(World(db, map[]), BeginCharge(0, reference));
    assert read.inflight == map[0 := Charging(C.Credit(i, db.quotes[C.QuoteOf(db, i)]))];
  }

  lemma UndisturbedReview(db: Db, quote: nat, status: QuoteStatus)
    ensures Act(Act(World(db, map[]), BeginReview(0, quote)), FinishReview(0, status)).db ==
            Step(db, ReviewQuote(quote, status))
  {
    if quote < |db.quotes| {
      assert Act(World(db, map[]), BeginReview(0, quote)).inflight == map[0 := Reviewing(quote, db.quotes[quote])];
    }
  }

  // ---------------------------------------------------------------- what every overlap keeps

  /** What an opening saves still fits the quote and, if it goes over a row, over an unpaid one of that quote. Only
      that row can be pending for the quote. */
  predicate OpeningFits(db: Db, o: P.Opening) {
    && o.quote < |db.quotes|
    && o.row.quote == Some(o.quote) && o.row.order.None? && o.row.status.Pending?
    && 0 <= o.row.amount && db.quotes[o.quote].paid + o.row.amount <= db.quotes[o.quote].amount
    && (o.found.Some? ==> o.found.value < |db.payments| && UnpaidOf(db.payments[o.found.value], o.quote))
    && (forall i :: 0 <= i < |db.payments| && PendingFor(o.quote)(db.payments[i]) ==> o.found == Some(i))
  }

  predicate UnpaidOf(p: Payment, quote: nat) { p.order.None? && p.quote == Some(quote) && !p.status.Paid? }

  predicate ChargeFits(db: Db, c: C.Credit) {
    C.Open(db, c.payment) && c.seen.amount == db.quotes[C.QuoteOf(db, c.payment)].amount
  }

  predicate Fits(db: Db, phase: Phase) {
    match phase
    case Opening(o) => OpeningFits(db, o)
    case Charging(c) => ChargeFits(db, c)
    case Reviewing(quote, seen) => quote < |db.quotes| && seen.amount == db.quotes[quote].amount
  }

  /** Openings have locked different quotes, and charges different payments. */
  predicate LocksApart(w: World) {
    forall tx, tx' :: tx in w.inflight && tx' in w.inflight && tx != tx' ==>
      && (w.inflight[tx].Opening? && w.inflight[tx'].Opening? ==>
            w.inflight[tx].opening.quote != w.inflight[tx'].opening.quote)
      && (w.inflight[tx].Charging? && w.inflight[tx'].Charging? ==>
            w.inflight[tx].credit.payment != w.inflight[tx'].credit.payment)
  }

  predicate Sound(w: World) {
    && WellFormed(w.db)
    && (forall tx :: tx in w.inflight ==> Fits(w.db, w.inflight[tx]))
    && LocksApart(w)
  }

  // ---------------------------------------------------------------- other calls

  /** Nothing becomes pending or paid for a quote, and no quote changes its amounts. */
  predicate Spares(db: Db, db': Db) {
    && |db.payments| <= |db'.payments| && |db.quotes| <= |db'.quotes|
    && (forall i :: 0 <= i < |db.payments| ==> SparesRow(db.payments[i], db'.payments[i]))
    && (forall i :: |db.payments| <= i < |db'.payments| ==> db'.payments[i].quote.None?)
    && (forall q :: 0 <= q < |db.quotes| ==>
          db'.quotes[q].amount == db.quotes[q].amount && db'.quotes[q].paid == db.quotes[q].paid)
  }

  predicate SparesRow(p: Payment, p': Payment) {
    && p'.quote == p.quote && p'.order == p.order
    && (p.quote.Some? ==> p' == p || (p' == p.(status := p'.status) && !p'.status.Pending? && !p'.status.Paid?))
  }

  lemma OrderOpeningSpares(db: Db, c: Command)
    requires WellFormed(db) && c.InitializePayment?
    ensures Spares(db, Step(db, c))
  {
    var found := FindFirst(db.payments, ForOrder(c.order));
    if found.Some? { assert PaymentOwned(db.payments[found.value], db.orders, db.quotes); }
  }

  lemma OrderPaidSpares(db: Db, payment: nat)
    requires WellFormed(db) && payment < |db.payments| && db.payments[payment].quote.None?
    requires ChargeSucceededTx(db, payment).Commit?
    ensures Spares(db, ChargeSucceededTx(db, payment).state)
  {
    var paid := SetPaymentStatus(db, payment, PaymentStatus.Paid);
    assert PaymentOwned(db.payments[payment], db.orders, db.quotes);
    var ordered := ProcessPaidTx(paid, db.payments[payment].order.value).state;
    assert ordered.payments == paid.payments && ordered.quotes == db.quotes;
  }

  lemma WebhookSpares(db: Db, c: Command)
    requires WellFormed(db) && c.Webhook? && !Staged(db, c)
    ensures Spares(db, Step(db, c))
  {
    var found := FindFirst(db.payments, WithReference(c.reference));
    if found.Some? && !Settled(db.payments[found.value].status) && c.event.Success? {
      if ChargeSucceededTx(db, found.value).Commit? { OrderPaidSpares(db, found.value); }
    }
  }

  lemma RefundSpares(db: Db, payment: int)
    requires WellFormed(db)
    ensures Spares(db, Step(db, RefundPayment(payment)))
  {
    if PaymentExists(db, payment) { assert PaymentOwned(db.payments[payment], db.orders, db.quotes); }
  }

  lemma OverrideSpares(db: Db, c: Command)
    requires c.Expire? || c.CancelPayment? || c.EscalatePayment?
    ensures Spares(db, Step(db, c))
  {}

  lemma OtherSpares(db: Db, c: Command)
    requires WellFormed(db) && !Staged(db, c)
    ensures Spares(db, Step(db, c))
  {
    if c.InitializePayment? {
      OrderOpeningSpares(db, c);
    } else if c.Webhook? {
      WebhookSpares(db, c);
    } else if c.RefundPayment? {
      RefundSpares(db, c.payment);
    } else if c.Expire? || c.CancelPayment? || c.EscalatePayment? {
      OverrideSpares(db, c);
    } else {
      assert Step(db, c).payments == db.payments;
    }
  }

  lemma SparedFits(db: Db, db': Db, phase: Phase)
    requires Spares(db, db') && Fits(db, phase) && !WritesLocked(db, db', phase)
    ensures Fits(db', phase)
  {
    match phase
    case Charging(_) =>
    case Reviewing(_, _) =>
    case Opening(o) =>
      forall i | 0 <= i < |db'.payments| && PendingFor(o.quote)(db'.payments[i]) ensures o.found == Some(i) {
        if i < |db.payments| { assert SparesRow(db.payments[i], db'.payments[i]); }
      }
      if o.found.Some? { assert SparesRow(db.payments[o.found.value], db'.payments[o.found.value]); }
  }

  lemma OtherSound(w: World, c: Command)
    requires Sound(w)
    ensures Sound(Act(w, Other(c)))
  {
    if !Staged(w.db, c) && !Waits(w, c) {
      StepKeepsWellFormed(w.db, c);
      OtherSpares(w.db, c);
      forall tx | tx in w.inflight ensures Fits(Step(w.db, c), w.inflight[tx]) {
        SparedFits(w.db, Step(w.db, c), w.inflight[tx]);
      }
    }
  }

  // ---------------------------------------------------------------- openings

  lemma BeginOpeningSound(w: World, tx: nat, c: Command)
    requires Sound(w)
    ensures Sound(Act(w, BeginOpening(tx, c)))
  {
    var w' := Act(w, BeginOpening(tx, c));
    if w' != w {
      BegunFits(w.db, c);
      forall other | other in w'.inflight ensures Fits(w'.db, w'.inflight[other]) {}
    }
  }

  lemma BegunFits(db: Db, c: Command)
    requires WellFormed(db) && c.InitializeQuotePayment? && QuoteExists(db, c.quote)
    requires PlanDue(db.quotes[c.quote], c.plan, c.balanceAllowed).Commit?
    requires PlanDue(db.quotes[c.quote], c.plan, c.balanceAllowed).state > 0
    ensures OpeningFits(db, P.Opening(c.quote, c.plan, FindFirst(db.payments, PendingFor(c.quote)),
                            P.RowToSave(db, c, PlanDue(db.quotes[c.quote], c.plan, c.balanceAllowed).state)))
  {
    var found := FindFirst(db.payments, PendingFor(c.quote));
    PlanFits(db.quotes[c.quote], c.plan, c.balanceAllowed, c.roundUp);
    if found.Some? { assert PaymentOwned(db.payments[found.value], db.orders, db.quotes); }
    forall i | 0 <= i < |db.payments| && PendingFor(c.quote)(db.payments[i]) ensures found == Some(i) {
      assert found.value == i || Apart(db.payments[found.value], db.payments[i]);
    }
  }

  lemma SaveOpeningKeeps(db: Db, o: P.Opening)
    requires WellFormed(db) && OpeningFits(db, o) && Saves(db, o, true)
    ensures WellFormed(SaveOpening(db, o))
  {
    var after := SaveOpening(db, o);
    var saved := db.(payments := after.payments);
    forall i | 0 <= i < |saved.payments| ensures PaymentOwned(saved.payments[i], db.orders, db.quotes) {
      if i < |db.payments| { assert PaymentOwned(db.payments[i], db.orders, db.quotes); }
    }
    forall i, j | 0 <= i < |saved.payments| && 0 <= j < |saved.payments| && i != j
      ensures Apart(saved.payments[i], saved.payments[j])
    {
      if i < |db.payments| && j < |db.payments| { assert Apart(db.payments[i], db.payments[j]); }
    }
    StatusAndStockKeep(saved, after);
  }

  lemma FitsAfterOpening(db: Db, o: P.Opening, phase: Phase)
    requires OpeningFits(db, o) && Saves(db, o, true) && Fits(db, phase)
    requires phase.Opening? ==> phase.opening.quote != o.quote
    requires phase.Charging? ==> o.found != Some(phase.credit.payment)
    ensures Fits(SaveOpening(db, o), phase)
  {
    var after := SaveOpening(db, o);
    match phase
    case Charging(c) => assert after.payments[c.payment] == db.payments[c.payment];
    case Reviewing(_, _) =>
    case Opening(p) =>
      forall i | 0 <= i < |after.payments| && PendingFor(p.quote)(after.payments[i]) ensures p.found == Some(i) {
        assert PendingFor(p.quote)(db.payments[i]);
      }
  }

  lemma FinishOpeningSound(w: World, tx: nat, providerUp: bool)
    requires Sound(w)
    ensures Sound(Act(w, FinishOpening(tx, providerUp)))
  {
    var w' := Act(w, FinishOpening(tx, providerUp));
    if w'.db != w.db {
      var o := w.inflight[tx].opening;
      assert Fits(w.db, w.inflight[tx]);
      SaveOpeningKeeps(w.db, o);
      forall other | other in w'.inflight ensures Fits(w'.db, w'.inflight[other]) {
        FitsAfterOpening(w.db, o, w.inflight[other]);
      }
    }
  }

  // ---------------------------------------------------------------- charges

  lemma BeginChargeSound(w: World, tx: nat, reference: string)
    requires Sound(w)
    ensures Sound(Act(w, BeginCharge(tx, reference)))
  {
    var w' := Act(w, BeginCharge(tx, reference));
    if w' != w {
      var phase := w'.inflight[tx];
      assert w' == w.(inflight := w.inflight[tx := phase]);
      assert Fits(w.db, phase) && !PaymentLocked(w, phase.credit.payment);
    }
  }

  lemma SaveCreditKeeps(db: Db, c: C.Credit)
    requires WellFormed(db) && ChargeFits(db, c)
    ensures WellFormed(C.SaveCredit(db, c))
  {
    PaymentStatusKeeps(db, c.payment, PaymentStatus.Paid);
    StatusAndStockKeep(SetPaymentStatus(db, c.payment, PaymentStatus.Paid), C.SaveCredit(db, c));
  }

  lemma FitsAfterCharge(db: Db, c: C.Credit, phase: Phase)
    requires ChargeFits(db, c) && Fits(db, phase)
    requires phase.Opening? ==> phase.opening.quote != C.QuoteOf(db, c.payment)
    requires phase.Charging? ==> phase.credit.payment != c.payment
    ensures Fits(C.SaveCredit(db, c), phase)
  {
    var after := C.SaveCredit(db, c);
    match phase
    case Charging(_) =>
    case Reviewing(_, _) =>
    case Opening(o) =>
      forall i | 0 <= i < |after.payments| && PendingFor(o.quote)(after.payments[i]) ensures o.found == Some(i) {
        assert PendingFor(o.quote)(db.payments[i]);
      }
  }

  lemma FinishChargeSound(w: World, tx: nat)
    requires Sound(w)
    ensures Sound(Act(w, FinishCharge(tx)))
  {
    if Commits(w, tx) {
      var c := w.inflight[tx].credit;
      assert Fits(w.db, w.inflight[tx]);
      SaveCreditKeeps(w.db, c);
      forall other | other in w.inflight && other != tx ensures Fits(C.SaveCredit(w.db, c), w.inflight[other]) {
        FitsAfterCharge(w.db, c, w.inflight[other]);
      }
    }
  }

  // ---------------------------------------------------------------- reviews

  lemma FitsAfterReview(db: Db, quote: nat, seen: Quote, status: QuoteStatus, phase: Phase)
    requires quote < |db.quotes| && seen.amount == db.quotes[quote].amount && Fits(db, phase)
    requires phase.Opening? ==> phase.opening.quote != quote
    ensures Fits(SaveReview(db, quote, seen, status), phase)
  {}

  lemma FinishReviewSound(w: World, tx: nat, status: QuoteStatus)
    requires Sound(w)
    ensures Sound(Act(w, FinishReview(tx, status)))
  {
    if Reviews(w, tx, status) {
      var quote, seen := w.inflight[tx].quote, w.inflight[tx].seen;
      assert Fits(w.db, w.inflight[tx]);
      StatusAndStockKeep(w.db, SaveReview(w.db, quote, seen, status));
      forall other | other in w.inflight && other != tx
        ensures Fits(SaveReview(w.db, quote, seen, status), w.inflight[other])
      {
        FitsAfterReview(w.db, quote, seen, status, w.inflight[other]);
      }
    }
  }

  lemma StepSound(w: World, a: Action)
    requires Sound(w)
    ensures Sound(Act(w, a))
  {
    match a
    case BeginOpening(tx, c) => BeginOpeningSound(w, tx, c);
    case FinishOpening(tx, providerUp) => FinishOpeningSound(w, tx, providerUp);
    case BeginCharge(tx, reference) => BeginChargeSound(w, tx, reference);
    case FinishCharge(tx) => FinishChargeSound(w, tx);
    case BeginReview(tx, quote) =>
    case FinishReview(tx, status) => FinishReviewSound(w, tx, status);
    case GiveUp(tx) =>
    case Other(c) => OtherSound(w, c);
  }

  // ---------------------------------------------------------------- when the books balance

  /** A charge that commits finds the credited amount it has read, and its payment is pending or still fits beside
      what is owed. */
  predicate CreditFits(db: Db, c: C.Credit)
    requires C.Open(db, c.payment)
  {
    var quote, row := db.quotes[C.QuoteOf(db, c.payment)], db.payments[c.payment];
    && c.seen.paid == quote.paid
    && (row.status.Pending? ||
        quote.paid + PendingSum(db, C.QuoteOf(db, c.payment)) + row.amount <= Max(0, quote.amount))
  }

  predicate KeepsBooks(w: World, a: Action) {
    match a
    case FinishCharge(tx) => Commits(w, tx) ==> CreditFits(w.db, w.inflight[tx].credit)
    case FinishReview(tx, status) =>
      // the credited amount is still the one the review has read
      Reviews(w, tx, status) ==> w.inflight[tx].seen.paid == w.db.quotes[w.inflight[tx].quote].paid
    case Other(c) => Staged(w.db, c) || Waits(w, c) || Execute(w.db, c).Abort? || KeepsBalance(w.db, c)
    case _ => true
  }

  lemma SaveOpeningSums(db: Db, o: P.Opening)
    requires WellFormed(db) && OpeningFits(db, o) && Saves(db, o, true)
    ensures var after := SaveOpening(db, o);
            && (forall q :: PaidSum(after, q) == PaidSum(db, q))
            && (forall q :: q != o.quote ==> PendingSum(after, q) == PendingSum(db, q))
            && PendingSum(after, o.quote) == o.row.amount
  {
    var after := SaveOpening(db, o);
    OnePending(db.payments, o.quote);
    if o.found.Some? {
      RowReplaced(db, o.found.value, o.row);
      assert after.payments == db.(payments := db.payments[o.found.value := o.row]).payments;
    } else {
      forall q ensures PaidSum(after, q) == PaidSum(db, q)
               ensures PendingSum(after, q) == PendingSum(db, q) + PendingTo(q)(o.row) {
        SumAppend(db.payments, o.row, PaidTo(q));
        SumAppend(db.payments, o.row, PendingTo(q));
      }
    }
  }

  /** Whatever has happened to the payment since it was read, saving the opening keeps the books. */
  lemma SaveOpeningBalanced(db: Db, o: P.Opening)
    requires WellFormed(db) && AllBalanced(db) && OpeningFits(db, o) && Saves(db, o, true)
    ensures AllBalanced(SaveOpening(db, o))
  {
    SaveOpeningSums(db, o);
    forall q | 0 <= q < |db.quotes| ensures Balanced(SaveOpening(db, o), q) { assert Balanced(db, q); }
  }

  lemma SaveCreditExact(db: Db, c: C.Credit)
    requires WellFormed(db) && AllBalanced(db) && ChargeFits(db, c)
    ensures AllBalanced(C.SaveCredit(db, c)) <==> CreditFits(db, c)
  {
    var after, q, row := C.SaveCredit(db, c), C.QuoteOf(db, c.payment), db.payments[c.payment];
    RowReplaced(db, c.payment, row.(status := PaymentStatus.Paid));
    assert after.payments == db.(payments := db.payments[c.payment := row.(status := PaymentStatus.Paid)]).payments;
    forall r | 0 <= r < |db.quotes| && r != q ensures Balanced(after, r) { assert Balanced(db, r); }
    assert Balanced(db, q);
    assert Balanced(after, q) <==> CreditFits(db, c);
  }

  lemma SaveReviewExact(db: Db, quote: nat, seen: Quote, status: QuoteStatus)
    requires AllBalanced(db) && quote < |db.quotes| && seen.amount == db.quotes[quote].amount
    ensures AllBalanced(SaveReview(db, quote, seen, status)) <==> seen.paid == db.quotes[quote].paid
  {
    var after := SaveReview(db, quote, seen, status);
    assert Balanced(db, quote);
    if seen.paid == db.quotes[quote].paid {
      SameMoney(db, after);
    } else {
      assert !Balanced(after, quote);
    }
  }

  /** From balanced books, a step of any overlap leaves them balanced if and only if it is neither an override that
      takes a paid quote payment off the books, nor a charge that commits over another credit or past the amount, nor
      a review that saves over a credit. Openings always keep them. */
  lemma StepBalancedExactly(w: World, a: Action)
    requires Sound(w) && AllBalanced(w.db)
    ensures AllBalanced(Act(w, a).db) <==> KeepsBooks(w, a)
  {
    match a
    case BeginOpening(_, _) =>
    case FinishOpening(tx, _) =>
      if Act(w, a).db != w.db {
        assert Fits(w.db, w.inflight[tx]);
        SaveOpeningBalanced(w.db, w.inflight[tx].opening);
      }
    case BeginCharge(_, _) =>
    case FinishCharge(tx) =>
      if Commits(w, tx) {
        assert Fits(w.db, w.inflight[tx]);
        SaveCreditExact(w.db, w.inflight[tx].credit);
      }
    case BeginReview(_, _) =>
    case FinishReview(tx, status) =>
      if Reviews(w, tx, status) {
        assert Fits(w.db, w.inflight[tx]);
        SaveReviewExact(w.db, w.inflight[tx].quote, w.inflight[tx].seen, status);
      }
    case GiveUp(_) =>
    case Other(c) =>
      if Execute(w.db, c).Commit? { QuoteBook.StepBalancedExactly(w.db, c); }
  }

  ghost predicate AllKeepBooks(w: World, actions: seq<Action>) {
    actions == [] ||
    var n := |actions| - 1;
    AllKeepBooks(w, actions[..n]) && KeepsBooks(Race(w, actions[..n]), actions[n])
  }

  /** However the transactions overlap, the structure of the ledger and the locks hold; while every step keeps the
      books, so does the run. */
  lemma {:induction false} RaceBalanced(w: World, actions: seq<Action>)
    requires Sound(w)
    ensures Sound(Race(w, actions))
    ensures AllBalanced(w.db) && AllKeepBooks(w, actions) ==> AllBalanced(Race(w, actions).db)
  {
    if actions != [] {
      var n := |actions| - 1;
      RaceBalanced(w, actions[..n]);
      StepSound(Race(w, actions[..n]), actions[n]);
      if AllBalanced(w.db) && AllKeepBooks(w, actions) {
        StepBalancedExactly(Race(w, actions[..n]), actions[n]);
      }
    }
  }

  // ---------------------------------------------------------------- a discipline that suffices

  /** The quote that an unfinished charge or review is going to save. */
  function Target(db: Db, phase: Phase): Option<nat> {
    match phase
    case Opening(_) => None
    case Charging(c) => if c.payment < |db.payments| then db.payments[c.payment].quote else None
    case Reviewing(quote, _) => Some(quote)
  }

  predicate Uncharged(w: World, quote: nat) {
    forall tx :: tx in w.inflight && w.inflight[tx].Charging? ==> Target(w.db, w.inflight[tx]) != Some(quote)
  }

  predicate Unreviewed(w: World, quote: nat) {
    forall tx :: tx in w.inflight && w.inflight[tx].Reviewing? ==> Target(w.db, w.inflight[tx]) != Some(quote)
  }

  /** Charges reach pending payments, and no two of a quote are unfinished at a time, nor a charge and a review; the
      other calls are those of a deployment. */
  predicate Disciplined(w: World, a: Action) {
    match a
    case BeginCharge(_, reference) =>
      (match FindFirst(w.db.payments, WithReference(reference))
       case None => true
       case Some(i) =>
         C.Open(w.db, i) ==>
           w.db.payments[i].status.Pending? && Uncharged(w, C.QuoteOf(w.db, i)) && Unreviewed(w, C.QuoteOf(w.db, i)))
    case BeginReview(_, quote) => Uncharged(w, quote)
    case Other(c) => LedgerRuns.Disciplined(w.db, c)
    case _ => true
  }

  /** The credited amount is still the one that was read, and the payment of a charge is pending. */
  predicate Informed(db: Db, phase: Phase) {
    match phase
    case Opening(_) => true
    case Charging(c) =>
      && C.Open(db, c.payment) && db.payments[c.payment].status.Pending?
      && db.quotes[C.QuoteOf(db, c.payment)].paid == c.seen.paid
    case Reviewing(quote, seen) => quote < |db.quotes| && db.quotes[quote].paid == seen.paid
  }

  predicate ChargesAlone(w: World) {
    && (forall tx :: tx in w.inflight ==> Informed(w.db, w.inflight[tx]))
    && (forall tx, tx' :: tx in w.inflight && tx' in w.inflight && tx != tx' && w.inflight[tx].Charging? ==>
          Target(w.db, w.inflight[tx]) != Target(w.db, w.inflight[tx']))
  }

  /** The payment of a charge and the credited amount of its quote, or of the quote of a review, are left alone. */
  predicate Untouched(db: Db, db': Db, phase: Phase) {
    match phase
    case Opening(_) => true
    case Charging(c) =>
      && c.payment < |db.payments| && c.payment < |db'.payments|
      && db'.payments[c.payment] == db.payments[c.payment]
      && (Target(db, phase).Some? ==> SamePaid(db, db', Target(db, phase).value))
    case Reviewing(quote, _) => SamePaid(db, db', quote)
  }

  predicate SamePaid(db: Db, db': Db, quote: nat) {
    quote < |db.quotes| && quote < |db'.quotes| && db'.quotes[quote].paid == db.quotes[quote].paid
  }

  lemma SavedUntouched(db: Db, o: P.Opening, phase: Phase)
    requires OpeningFits(db, o) && Saves(db, o, true) && Fits(db, phase)
    requires phase.Charging? ==> o.found != Some(phase.credit.payment)
    ensures Untouched(db, SaveOpening(db, o), phase)
  {}

  lemma OpeningUntouched(w: World, a: Action, tx: nat)
    requires Sound(w) && a.FinishOpening? && tx in w.inflight
    ensures Untouched(w.db, Act(w, a).db, w.inflight[tx])
  {
    assert Fits(w.db, w.inflight[tx]);
    if Act(w, a).db != w.db {
      assert Fits(w.db, w.inflight[a.tx]);
      SavedUntouched(w.db, w.inflight[a.tx].opening, w.inflight[tx]);
    }
  }

  lemma ChargeUntouched(w: World, a: Action, tx: nat)
    requires Sound(w) && ChargesAlone(w) && a.FinishCharge? && a.tx != tx && tx in w.inflight
    ensures Untouched(w.db, Act(w, a).db, w.inflight[tx])
  {
    assert Fits(w.db, w.inflight[tx]);
    if Commits(w, a.tx) {
      assert Target(w.db, w.inflight[a.tx]) != Target(w.db, w.inflight[tx]);
      C.SaveMoves(w.db, w.inflight[a.tx].credit);
    }
  }

  lemma ReviewUntouched(w: World, a: Action, tx: nat)
    requires Sound(w) && ChargesAlone(w) && a.FinishReview? && tx in w.inflight
    ensures Untouched(w.db, Act(w, a).db, w.inflight[tx])
  {
    assert Fits(w.db, w.inflight[tx]);
    if Reviews(w, a.tx, a.status) { assert Informed(w.db, w.inflight[a.tx]); }
  }

  /** What a call outside the stages leaves: nothing changes, or quotes are spared and no locked row is written. */
  predicate Polite(w: World, db': Db) {
    db' == w.db ||
    (Spares(w.db, db') && forall tx :: tx in w.inflight ==> !WritesLocked(w.db, db', w.inflight[tx]))
  }

  lemma OtherPolite(w: World, c: Command)
    requires Sound(w)
    ensures Polite(w, Act(w, Other(c)).db)
  {
    if !Staged(w.db, c) { OtherSpares(w.db, c); }
  }

  lemma PoliteUntouched(w: World, db': Db, tx: nat)
    requires Sound(w) && Polite(w, db') && tx in w.inflight
    ensures Untouched(w.db, db', w.inflight[tx])
  {
    assert Fits(w.db, w.inflight[tx]) && (db' == w.db || !WritesLocked(w.db, db', w.inflight[tx]));
  }

  predicate Begins(a: Action) { a.BeginOpening? || a.BeginCharge? || a.BeginReview? }

  lemma StaysUnfinished(w: World, a: Action, tx: nat)
    requires tx in Act(w, a).inflight && !Begins(a)
    ensures tx in w.inflight && Act(w, a).inflight[tx] == w.inflight[tx]
  {}

  lemma StillUntouched(w: World, a: Action, tx: nat)
    requires Sound(w) && ChargesAlone(w) && !Begins(a) && tx in w.inflight && tx in Act(w, a).inflight
    ensures Untouched(w.db, Act(w, a).db, w.inflight[tx])
  {
    assert Fits(w.db, w.inflight[tx]);
    match a
    case FinishOpening(_, _) => OpeningUntouched(w, a, tx);
    case FinishCharge(other) => if Commits(w, other) { ChargeUntouched(w, a, tx); }
    case FinishReview(_, _) => ReviewUntouched(w, a, tx);
    case GiveUp(_) =>
    case Other(c) =>
      OtherPolite(w, c);
      PoliteUntouched(w, Act(w, a).db, tx);
  }

  lemma BeginsAlone(w: World, a: Action)
    requires Sound(w) && ChargesAlone(w) && Disciplined(w, a) && Begins(a)
    ensures ChargesAlone(Act(w, a))
  {
    var w' := Act(w, a);
    if w' != w {
      var phase := w'.inflight[a.tx];
      assert w' == w.(inflight := w.inflight[a.tx := phase]);
      forall tx | tx in w.inflight ensures Fits(w.db, w.inflight[tx]) {}
    }
  }

  lemma StepChargesAlone(w: World, a: Action)
    requires Sound(w) && ChargesAlone(w) && !Begins(a)
    ensures ChargesAlone(Act(w, a))
  {
    var w' := Act(w, a);
    forall tx | tx in w'.inflight
      ensures tx in w.inflight && w'.inflight[tx] == w.inflight[tx]
      ensures Informed(w.db, w.inflight[tx]) && Untouched(w.db, w'.db, w.inflight[tx])
    {
      StaysUnfinished(w, a, tx);
      StillUntouched(w, a, tx);
    }
    UntouchedAlone(w, w');
  }

  lemma UntouchedAlone(w: World, w': World)
    requires ChargesAlone(w)
    requires forall tx :: tx in w'.inflight ==>
               && tx in w.inflight && w'.inflight[tx] == w.inflight[tx]
               && Informed(w.db, w.inflight[tx]) && Untouched(w.db, w'.db, w.inflight[tx])
    ensures ChargesAlone(w')
  {
    forall tx | tx in w'.inflight
      ensures Target(w'.db, w'.inflight[tx]) == Target(w.db, w.inflight[tx])
      ensures Informed(w'.db, w'.inflight[tx])
    {}
  }

  lemma DisciplinedKeeps(w: World, a: Action)
    requires ChargesAlone(w) && Disciplined(w, a)
    ensures KeepsBooks(w, a)
  {
    if a.Other? { LedgerRuns.DisciplinedIsSafe(w.db, a.one); }
    if a.FinishCharge? && Commits(w, a.tx) { assert Informed(w.db, w.inflight[a.tx]); }
    if a.FinishReview? && Reviews(w, a.tx, a.status) { assert Informed(w.db, w.inflight[a.tx]); }
  }

  lemma DisciplinedStep(w: World, a: Action)
    requires Sound(w) && ChargesAlone(w) && Disciplined(w, a)
    ensures KeepsBooks(w, a) && ChargesAlone(Act(w, a))
  {
    DisciplinedKeeps(w, a);
    if Begins(a) { BeginsAlone(w, a); } else { StepChargesAlone(w, a); }
  }

  ghost predicate AllDisciplined(w: World, actions: seq<Action>) {
    actions == [] ||
    var n := |actions| - 1;
    AllDisciplined(w, actions[..n]) && Disciplined(Race(w, actions[..n]), actions[n])
  }

  lemma {:induction false} DisciplinedKeepsBooks(w: World, actions: seq<Action>)
    requires Sound(w) && ChargesAlone(w) && AllDisciplined(w, actions)
    ensures AllKeepBooks(w, actions) && ChargesAlone(Race(w, actions))
  {
    if actions != [] {
      var n := |actions| - 1;
      DisciplinedKeepsBooks(w, actions[..n]);
      RaceBalanced(w, actions[..n]);
      DisciplinedStep(Race(w, actions[..n]), actions[n]);
    }
  }

  /** From the empty ledger, however openings, charges, reviews and all other calls overlap under this discipline: no
      quote has two pending payments, and what a quote has been credited is the sum of its paid payments and leaves
      room for the pending one. */
  lemma DisciplinedRacesBalance(actions: seq<Action>, alertRaises: bool)
    requires AllDisciplined(World(Empty(alertRaises), map[]), actions)
    ensures var db := Race(World(Empty(alertRaises), map[]), actions).db;
            && (forall i, j :: 0 <= i < j < |db.payments| && db.payments[i].quote.Some? &&
                               db.payments[i].status.Pending? && db.payments[j].status.Pending? ==>
                  db.payments[i].quote != db.payments[j].quote)
            && (forall q :: 0 <= q < |db.quotes| ==>
                  db.quotes[q].paid == PaidSum(db, q) &&
                  db.quotes[q].paid + PendingSum(db, q) <= Max(0, db.quotes[q].amount))
  {
    var start := World(Empty(alertRaises), map[]);
    DisciplinedKeepsBooks(start, actions);
    RaceBalanced(start, actions);
    var db := Race(start, actions).db;
    forall q | 0 <= q < |db.quotes|
      ensures db.quotes[q].paid == PaidSum(db, q)
      ensures db.quotes[q].paid + PendingSum(db, q) <= Max(0, db.quotes[q].amount)
    {
      assert Balanced(db, q);
    }
    forall i, j | 0 <= i < j < |db.payments| && db.payments[i].quote.Some? &&
                  db.payments[i].status.Pending? && db.payments[j].status.Pending?
      ensures db.payments[i].quote != db.payments[j].quote
    {
      assert Apart(db.payments[i], db.payments[j]);
    }
  }

  // ---------------------------------------------------------------- a charge and what runs in between

  /** The charge is unfinished and holds this payment row. */
  predicate Holds(w: World, tx: nat, phase: Phase, row: Payment) {
    && IsCharging(w, tx) && w.inflight[tx] == phase
    && phase.credit.payment < |w.db.payments| && w.db.payments[phase.credit.payment] == row
  }

  lemma OpeningHolds(w: World, a: Action, tx: nat, phase: Phase, row: Payment)
    requires Sound(w) && Holds(w, tx, phase, row) && a.FinishOpening?
    ensures Holds(Act(w, a), tx, phase, row)
  {
    OpeningUntouched(w, a, tx);
  }

  lemma OtherHolds(w: World, c: Command, tx: nat, phase: Phase, row: Payment)
    requires Sound(w) && Holds(w, tx, phase, row)
    ensures Holds(Act(w, Other(c)), tx, phase, row)
  {
    OtherPolite(w, c);
    PoliteUntouched(w, Act(w, Other(c)).db, tx);
  }

  lemma OtherChargeHolds(w: World, other: nat, tx: nat, phase: Phase, row: Payment)
    requires Sound(w) && Holds(w, tx, phase, row) && other != tx
    ensures Holds(Act(w, FinishCharge(other)), tx, phase, row)
  {
    if Commits(w, other) { assert w.inflight[other].credit.payment != phase.credit.payment; }
  }

  lemma HeldStep(w: World, a: Action, tx: nat, phase: Phase, row: Payment)
    requires Sound(w) && Holds(w, tx, phase, row) && a != FinishCharge(tx) && a != GiveUp(tx)
    ensures Holds(Act(w, a), tx, phase, row)
  {
    match a
    case BeginOpening(_, _) =>
    case FinishOpening(_, _) => OpeningHolds(w, a, tx, phase, row);
    case BeginCharge(_, _) =>
    case FinishCharge(other) => OtherChargeHolds(w, other, tx, phase, row);
    case BeginReview(_, _) =>
    case FinishReview(_, _) =>
    case GiveUp(_) =>
    case Other(c) => OtherHolds(w, c, tx, phase, row);
  }

  lemma {:induction false} HeldRun(w: World, actions: seq<Action>, tx: nat, phase: Phase, row: Payment)
    requires Sound(w) && Holds(w, tx, phase, row) && FinishCharge(tx) !in actions && GiveUp(tx) !in actions
    ensures Holds(Race(w, actions), tx, phase, row)
  {
    if actions != [] {
      var n := |actions| - 1;
      assert actions[n] in actions;
      HeldRun(w, actions[..n], tx, phase, row);
      RaceBalanced(w, actions[..n]);
      HeldStep(Race(w, actions[..n]), actions[n], tx, phase, row);
    }
  }

  /** A charge finds a pending payment and reads its quote, anything that keeps the books runs, and the charge commits:
      the books still balance if and only if the quote's credited amount is the one at the start. */
  lemma StaleChargeExact(w: World, tx: nat, reference: string, between: seq<Action>)
    requires Sound(w) && AllBalanced(w.db) && tx !in w.inflight
    requires var begun := Act(w, BeginCharge(tx, reference));
             && IsCharging(begun, tx) && w.db.payments[begun.inflight[tx].credit.payment].status.Pending?
             && FinishCharge(tx) !in between && GiveUp(tx) !in between && AllKeepBooks(begun, between)
             && Commits(Race(begun, between), tx)
    ensures var begun := Act(w, BeginCharge(tx, reference));
            var later := Race(begun, between);
            var quote := C.QuoteOf(w.db, begun.inflight[tx].credit.payment);
            AllBalanced(Act(later, FinishCharge(tx)).db) <==>
              quote < |later.db.quotes| && later.db.quotes[quote].paid == w.db.quotes[quote].paid
  {
    var begun := Act(w, BeginCharge(tx, reference));
    var phase := begun.inflight[tx];
    BeginChargeSound(w, tx, reference);
    RaceBalanced(begun, between);
    HeldRun(begun, between, tx, phase, w.db.payments[phase.credit.payment]);
    StepBalancedExactly(Race(begun, between), FinishCharge(tx));
  }

  // ---------------------------------------------------------------- a run in which a review loses a credit

  /** From the empty ledger: a quote's payment is opened, the quote is read for its approval, the payment is charged,
      and the approval is saved. Of 100 paid, the quote is credited nothing. */
  lemma ReviewLosesCredit(reference: string)
    ensures var w := World(Run(Empty(true), OpenedBy(reference)), map[]);
            var read := Act(w, BeginReview(0, 0));
            var charged := Act(Act(read, BeginCharge(1, reference)), FinishCharge(1));
            var done := Act(charged, FinishReview(0, QuoteStatus.Approved)).db;
            && charged.db.quotes == [Quote(100, 100, QuoteStatus.Paid, Some(Full))]
            && done.quotes == [Quote(100, 0, QuoteStatus.Approved, Some(Full))] && PaidSum(done, 0) == 100
  {
    var db := Run(Empty(true), OpenedBy(reference));
    Opened(reference);
    FirstPaymentFound(db, reference);
    var issued := db.quotes[0];
    var read := World(db, map[0 := Reviewing(0, issued)]);
    assert Act(World(db, map[]), BeginReview(0, 0)) == read;
    var charging := read.(inflight := map[0 := Reviewing(0, issued), 1 := Charging(C.Credit(0, issued))]);
    assert Act(read, BeginCharge(1, reference)) == charging;
    var charged := World(Books(100, QuoteStatus.Paid, [Charge(reference, PaymentStatus.Paid)]), read.inflight);
    ChargedAs(charging, reference);
    SingleSum(Charge(reference, PaymentStatus.Paid), PaidTo(0));
    assert charged.db.quotes[0 := issued.(status := QuoteStatus.Approved)] ==
           [Quote(100, 0, QuoteStatus.Approved, Some(Full))];
  }

  lemma ChargedAs(w: World, reference: string)
    requires w.db == Books(0, QuoteStatus.Issued, [Charge(reference, PaymentStatus.Pending)])
    requires w.inflight == map[0 := Reviewing(0, w.db.quotes[0]), 1 := Charging(C.Credit(0, w.db.quotes[0]))]
    ensures Act(w, FinishCharge(1)) ==
            World(Books(100, QuoteStatus.Paid, [Charge(reference, PaymentStatus.Paid)]), w.inflight - {1})
    ensures w.inflight - {1} == map[0 := Reviewing(0, w.db.quotes[0])]
  {
    assert w.db.payments[0 := Charge(reference, PaymentStatus.Paid)] == [Charge(reference, PaymentStatus.Paid)];
    assert w.db.quotes[0 := Credited(w.db.quotes[0], 100)] == [Quote(100, 100, QuoteStatus.Paid, Some(Full))];
  }
}
