/** Opening a quote payment while other calls run. The opening locks its quote, but it reads the quote's pending
    payment without a lock and saves the whole row later: a cancellation, expiry or failure committed in between
    is overwritten, and the payment is pending again. */
module PaymentRace {
  import opened Prelude
  import opened Ledger
  import opened Settlement

  /** An opening between its read and its commit: the payment row it found pending, as read, and what it will
      write. */
  datatype Opening = Opening(quote: nat, plan: Plan, found: Option<nat>, row: Payment)

  datatype World = World(db: Db, inflight: map<nat, Opening>)

  datatype Action = Begin(tx: nat, call: Command) | Finish(txn: nat, providerUp: bool) | Other(one: Command)

  predicate QuoteLocked(w: World, quote: int) {
    exists tx :: tx in w.inflight && w.inflight[tx].quote == quote
  }

  /** The row an opening is going to save. */
  function RowToSave(db: Db, c: Command, due: int): Payment
    requires c.InitializeQuotePayment? && QuoteExists(db, c.quote)
  {
    match FindFirst(db.payments, PendingFor(c.quote))
    case Some(i) => db.payments[i].(reference := c.reference, amount := StoredKobo(due, c.roundUp))
    case None =>
      Payment(None, Some(c.quote), c.reference, StoredKobo(due, c.roundUp), PaymentStatus.Pending, c.now)
  }

  function BeginStep(w: World, tx: nat, c: Command): World {
    if !c.InitializeQuotePayment? || tx in w.inflight || !QuoteExists(w.db, c.quote) || QuoteLocked(w, c.quote) then w
    else
      match PlanDue(w.db.quotes[c.quote], c.plan, c.balanceAllowed)
      case Abort(_) => w
      case Commit(due) =>
        if due <= 0 then w
        else
          var found := FindFirst(w.db.payments, PendingFor(c.quote));
          w.(inflight := w.inflight[tx := Opening(c.quote, c.plan, found, RowToSave(w.db, c, due))])
  }

  /** The save goes through: the reference is free and the provider answers. */
  predicate Saves(w: World, tx: nat, providerUp: bool) {
    && tx in w.inflight && QuoteExists(w.db, w.inflight[tx].quote) && providerUp
    && (w.inflight[tx].found.Some? ==> PaymentExists(w.db, w.inflight[tx].found.value))
    && !ReferenceTaken(w.db.payments, w.inflight[tx].row.reference,
                       if w.inflight[tx].found.Some? then w.inflight[tx].found.value else -1)
  }

  function FinishStep(w: World, tx: nat, providerUp: bool): World {
    if tx !in w.inflight then w
    else if !Saves(w, tx, providerUp) then w.(inflight := w.inflight - {tx})
    else
      var o := w.inflight[tx];
      var payments :=
        if o.found.Some? then w.db.payments[o.found.value := o.row] else w.db.payments + [o.row];
      World(w.db.(payments := payments, quotes := w.db.quotes[o.quote := w.db.quotes[o.quote].(plan := Some(o.plan))]),
            w.inflight - {tx})
  }

  /** A success is saved to the quote as well, so it waits for the lock on the quote. */
  predicate Waits(w: World, c: Command) {
    c.Webhook? && c.event.Success? &&
    match FindFirst(w.db.payments, WithReference(c.reference))
    case None => false
    case Some(i) => w.db.payments[i].quote.Some? && QuoteLocked(w, w.db.payments[i].quote.value)
  }

  function Act(w: World, a: Action): World {
    match a
    case Begin(tx, c) => BeginStep(w, tx, c)
    case Finish(tx, providerUp) => FinishStep(w, tx, providerUp)
    case Other(c) => if c.InitializeQuotePayment? || Waits(w, c) then w else w.(db := Step(w.db, c))
  }

  function Race(w: World, actions: seq<Action>): World {
    if actions == [] then w else Act(Race(w, actions[..|actions| - 1]), actions[|actions| - 1])
  }

  /** Undisturbed, an opening is the ledger's own transaction. */
  lemma UndisturbedOpening(db: Db, c: Command)
    requires c.InitializeQuotePayment?
    ensures Act(Act(World(db, map[]), Begin(0, c)), Finish(0, c.providerUp)).db == Step(db, c)
  {}

  /** While an opening is unfinished no step moves the amounts of its quote, so what it will ask for still fits. */
  lemma LockedQuoteKept(w: World, a: Action, quote: nat)
    requires QuoteLocked(w, quote) && quote < |w.db.quotes|
    ensures quote < |Act(w, a).db.quotes|
    ensures Act(w, a).db.quotes[quote].paid == w.db.quotes[quote].paid
    ensures Act(w, a).db.quotes[quote].amount == w.db.quotes[quote].amount
  {
    match a
    case Begin(_, _) =>
    case Finish(_, _) =>
    case Other(c) => if c.Webhook? { WebhookSparesLocked(w, c, quote); }
  }

  lemma WebhookSparesLocked(w: World, c: Command, quote: nat)
    requires QuoteLocked(w, quote) && quote < |w.db.quotes| && c.Webhook?
    ensures quote < |Act(w, Other(c)).db.quotes|
    ensures Act(w, Other(c)).db.quotes[quote] == w.db.quotes[quote]
  {}

  // ---------------------------------------------------------------- when a cancelled payment stays cancelled

  /** A cancelled payment of a quote. */
  predicate CancelledAt(db: Db, p: nat) {
    p < |db.payments| && db.payments[p].status.Cancelled? && db.payments[p].order.None?
  }

  /** Every unfinished opening will save a pending row. */
  predicate SavesPending(w: World) {
    forall tx :: tx in w.inflight ==> w.inflight[tx].row.status.Pending?
  }

  lemma ActSavesPending(w: World, a: Action)
    requires SavesPending(w)
    ensures SavesPending(Act(w, a))
  {}

  /** The step saves an opening that read this payment while it was pending. */
  predicate Reopens(w: World, a: Action, p: nat) {
    a.Finish? && Saves(w, a.txn, a.providerUp) && w.inflight[a.txn].found == Some(p)
  }

  lemma OtherKeepsCancelled(db: Db, c: Command, p: nat)
    requires CancelledAt(db, p) && !c.InitializeQuotePayment?
    ensures p < |Step(db, c).payments|
    ensures Step(db, c).payments[p] ==
            if c == EscalatePayment(p) then db.payments[p].(status := PaymentStatus.Escalated) else db.payments[p]
  {
    if c.Webhook? || c.RefundPayment? || c.InitializePayment? {
      PaymentCallsSpareCancelled(db, c, p);
    }
  }

  lemma PaymentCallsSpareCancelled(db: Db, c: Command, p: nat)
    requires CancelledAt(db, p) && (c.Webhook? || c.RefundPayment? || c.InitializePayment?)
    ensures p < |Step(db, c).payments| && Step(db, c).payments[p] == db.payments[p]
  {}

  /** A step leaves a cancelled payment cancelled if and only if it neither escalates it nor saves an opening that
      read it while it was pending. */
  lemma StaysCancelledExactly(w: World, a: Action, p: nat)
    requires SavesPending(w) && CancelledAt(w.db, p)
    ensures CancelledAt(Act(w, a).db, p) <==> !Reopens(w, a, p) && a != Other(EscalatePayment(p))
    ensures CancelledAt(Act(w, a).db, p) ==> Act(w, a).db.payments[p] == w.db.payments[p]
    ensures Reopens(w, a, p) ==> Act(w, a).db.payments[p].status.Pending?
  {
    match a
    case Begin(_, _) =>
    case Finish(_, _) =>
    case Other(c) => if !c.InitializeQuotePayment? { OtherKeepsCancelled(w.db, c, p); }
  }

  /** No unfinished opening has read this payment. */
  predicate Unread(w: World, p: nat) {
    forall tx :: tx in w.inflight ==> w.inflight[tx].found != Some(p)
  }

  lemma ActUnread(w: World, a: Action, p: nat)
    requires CancelledAt(w.db, p) && Unread(w, p)
    ensures Unread(Act(w, a), p)
  {
    if a.Begin? && a.call.InitializeQuotePayment? {
      var found := FindFirst(w.db.payments, PendingFor(a.call.quote));
      assert found.Some? ==> PendingFor(a.call.quote)(w.db.payments[found.value]);
    }
  }

  /** Cancelled while no opening that has read it is unfinished, a payment stays cancelled in every run that does
      not escalate it, however openings and other calls interleave. */
  lemma {:induction false} CancelledForever(w: World, actions: seq<Action>, p: nat)
    requires SavesPending(w) && CancelledAt(w.db, p) && Unread(w, p)
    requires Other(EscalatePayment(p)) !in actions
    ensures var w' := Race(w, actions);
            && SavesPending(w') && CancelledAt(w'.db, p) && Unread(w', p)
            && w'.db.payments[p] == w.db.payments[p]
  {
    if actions != [] {
      var n := |actions| - 1;
      assert actions[n] in actions;
      CancelledForever(w, actions[..n], p);
      var w' := Race(w, actions[..n]);
      StaysCancelledExactly(w', actions[n], p);
      ActSavesPending(w', actions[n]);
      ActUnread(w', actions[n], p);
    }
  }

  // ---------------------------------------------------------------- a run that reopens a cancelled payment

  lemma OpeningReads(db: Db, first: string, second: string)
    requires db == Books(0, QuoteStatus.Issued, [Charge(first, PaymentStatus.Pending)])
    ensures Act(World(db, map[]), Begin(0, Open(second))) ==
            World(db, map[0 := Opening(0, Full, Some(0), Charge(second, PaymentStatus.Pending))])
  {
    assert PendingFor(0)(db.payments[0]);
    assert FindFirst(db.payments, PendingFor(0)) == Some(0);
  }

  lemma Cancels(w: World, first: string)
    requires w.db == Books(0, QuoteStatus.Issued, [Charge(first, PaymentStatus.Pending)])
    ensures Act(w, Other(CancelPayment(0))) ==
            w.(db := Books(0, QuoteStatus.Issued, [Charge(first, PaymentStatus.Cancelled)]))
  {
    assert w.db.payments[0 := Charge(first, PaymentStatus.Cancelled)] == [Charge(first, PaymentStatus.Cancelled)];
  }

  /** From the empty ledger: a payment is opened, opened again under another reference, and cancelled before the
      second opening saves. It ends up pending. */
  lemma CancellationOverwritten(first: string, second: string)
    ensures var w := World(Run(Empty(true), OpenedBy(first)), map[]);
            var cancelled := Act(Act(w, Begin(0, Open(second))), Other(CancelPayment(0)));
            && CancelledAt(cancelled.db, 0)
            && Act(cancelled, Finish(0, true)).db.payments == [Charge(second, PaymentStatus.Pending)]
  {
    var db := Run(Empty(true), OpenedBy(first));
    Opened(first);
    OpeningReads(db, first, second);
    var begun := Act(World(db, map[]), Begin(0, Open(second)));
    Cancels(begun, first);
    var cancelled := Act(begun, Other(CancelPayment(0)));
    assert cancelled.db.payments[0 := Charge(second, PaymentStatus.Pending)] == [Charge(second, PaymentStatus.Pending)];
  }
}
