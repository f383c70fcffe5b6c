/** Successful charges of quotes when their transactions overlap. A webhook locks its payment row, but it reads
    the quote without a lock and saves the whole row later, so a credit committed in between can be lost. */
module CreditRace {
  import opened Prelude
  import opened Ledger
  import opened QuoteBook
  import opened Settlement

  /** A webhook between its read of the quote and its commit: the locked payment, and the quote as read. */
  datatype Credit = Credit(payment: nat, seen: Quote)

  datatype World = World(db: Db, inflight: map<nat, Credit>)

  datatype Action = Read(tx: nat, reference: string) | Save(txn: nat)

  predicate Locked(w: World, payment: nat) {
    exists tx :: tx in w.inflight && w.inflight[tx].payment == payment
  }

  /** The payment of a quote that a charge finds open. */
  predicate Open(db: Db, payment: nat) {
    && payment < |db.payments| && !Settled(db.payments[payment].status)
    && db.payments[payment].order.None? && db.payments[payment].quote.Some?
    && QuoteExists(db, db.payments[payment].quote.value)
  }

  function QuoteOf(db: Db, payment: nat): nat
    requires Open(db, payment)
  {
    db.payments[payment].quote.value
  }

  /** The commit: the payment is paid, and the quote is saved as read plus the amount. */
  function SaveCredit(db: Db, c: Credit): Db
    requires Open(db, c.payment)
  {
    var quote := QuoteOf(db, c.payment);
    SetPaymentStatus(db, c.payment, PaymentStatus.Paid)
      .(quotes := db.quotes[quote := Credited(c.seen, db.payments[c.payment].amount)])
  }

  function Act(w: World, a: Action): World {
    match a
    case Read(tx, reference) =>
      (match FindFirst(w.db.payments, WithReference(reference))
       case None => w
       case Some(i) =>
         if tx in w.inflight || Locked(w, i) || !Open(w.db, i) then w
         else w.(inflight := w.inflight[tx := Credit(i, w.db.quotes[QuoteOf(w.db, i)])]))
    case Save(tx) =>
      if tx !in w.inflight || !Open(w.db, w.inflight[tx].payment) then w
      else World(SaveCredit(w.db, w.inflight[tx]), w.inflight - {tx})
  }

  function Run(w: World, actions: seq<Action>): World {
    if actions == [] then w else Act(Run(w, actions[..|actions| - 1]), actions[|actions| - 1])
  }

  /** Undisturbed, a charge is the ledger's own webhook. */
  lemma UndisturbedCharge(db: Db, reference: string, i: nat)
    requires FindFirst(db.payments, WithReference(reference)) == Some(i) && Open(db, i)
    ensures Act(Act(World(db, map[]), Read(0, reference)), Save(0)).db == Step(db, Webhook(reference, Success))
  {
    var read := Act(World(db, map[]), Read(0, reference));
    assert read.inflight == map[0 := Credit(i, db.quotes[QuoteOf(db, i)])];
  }

  /** Every quote has been credited exactly its paid payments. */
  predicate Tallied(db: Db) {
    forall q :: 0 <= q < |db.quotes| ==> db.quotes[q].paid == PaidSum(db, q)
  }

  /** A charge that saves finds the credited amount it has read. */
  predicate Current(w: World, a: Action) {
    a.Save? && a.txn in w.inflight && Open(w.db, w.inflight[a.txn].payment) ==>
      w.inflight[a.txn].seen.paid == w.db.quotes[QuoteOf(w.db, w.inflight[a.txn].payment)].paid
  }

  /** What a save does to the two sides of the tally. */
  lemma SaveMoves(db: Db, c: Credit)
    requires Open(db, c.payment)
    ensures var db' := SaveCredit(db, c);
            var amount := db.payments[c.payment].amount;
            && |db'.quotes| == |db.quotes| && db'.quotes[QuoteOf(db, c.payment)].paid == c.seen.paid + amount
            && (forall q :: 0 <= q < |db.quotes| && q != QuoteOf(db, c.payment) ==> db'.quotes[q] == db.quotes[q])
            && (forall q :: PaidSum(db', q) == PaidSum(db, q) + (if q == QuoteOf(db, c.payment) then amount else 0))
  {
    var row := db.payments[c.payment];
    forall q
      ensures PaidSum(SaveCredit(db, c), q) == PaidSum(db, q) + (if q == QuoteOf(db, c.payment) then row.amount else 0)
    {
      SumUpdate(db.payments, c.payment, row.(status := PaymentStatus.Paid), PaidTo(q));
    }
  }

  /** From exact tallies, a step keeps them exact if and only if it is not a save over a credit committed since
      the read. */
  lemma StepTalliedExactly(w: World, a: Action)
    requires Tallied(w.db)
    ensures Tallied(Act(w, a).db) <==> Current(w, a)
  {
    if a.Save? && a.txn in w.inflight && Open(w.db, w.inflight[a.txn].payment) {
      var c := w.inflight[a.txn];
      SaveMoves(w.db, c);
      var q := QuoteOf(w.db, c.payment);
      assert w.db.quotes[q].paid == PaidSum(w.db, q);
    }
  }

  predicate AllCurrent(w: World, actions: seq<Action>) {
    forall n :: 0 <= n < |actions| ==> Current(Run(w, actions[..n]), actions[n])
  }

  lemma AllCurrentLast(w: World, actions: seq<Action>)
    requires actions != []
    ensures AllCurrent(w, actions) <==>
            AllCurrent(w, actions[..|actions| - 1]) &&
            Current(Run(w, actions[..|actions| - 1]), actions[|actions| - 1])
  {
    var n := |actions| - 1;
    forall m | 0 <= m < n
      ensures Current(Run(w, actions[..n][..m]), actions[..n][m]) <==> Current(Run(w, actions[..m]), actions[m])
    {
      assert actions[..n][..m] == actions[..m];
    }
  }

  /** No credit is lost in any overlap of charges whose saves are all current. */
  lemma {:induction false} RunTallied(w: World, actions: seq<Action>)
    requires Tallied(w.db) && AllCurrent(w, actions)
    ensures Tallied(Run(w, actions).db)
  {
    if actions != [] {
      var n := |actions| - 1;
      AllCurrentLast(w, actions);
      RunTallied(w, actions[..n]);
      StepTalliedExactly(Run(w, actions[..n]), actions[n]);
    }
  }

  // ---------------------------------------------------------------- which saves lose a credit

  /** The step commits a charge of this quote. */
  predicate Credits(w: World, a: Action, quote: nat) {
    a.Save? && a.txn in w.inflight && Open(w.db, w.inflight[a.txn].payment) &&
    QuoteOf(w.db, w.inflight[a.txn].payment) == quote
  }

  /** What the charges committed along a run credited to a quote. */
  function CreditedAlong(w: World, actions: seq<Action>, quote: nat): int {
    if actions == [] then 0
    else
      var before, a := Run(w, actions[..|actions| - 1]), actions[|actions| - 1];
      CreditedAlong(w, actions[..|actions| - 1], quote) +
      if Credits(before, a, quote) then before.db.payments[before.inflight[a.txn].payment].amount else 0
  }

  lemma StepPaid(w: World, a: Action, quote: nat)
    requires quote < |w.db.quotes| && Current(w, a)
    ensures |Act(w, a).db.quotes| == |w.db.quotes|
    ensures Act(w, a).db.quotes[quote].paid == w.db.quotes[quote].paid +
            (if Credits(w, a, quote) then w.db.payments[w.inflight[a.txn].payment].amount else 0)
  {
    if a.Save? && a.txn in w.inflight && Open(w.db, w.inflight[a.txn].payment) {
      SaveMoves(w.db, w.inflight[a.txn]);
    }
  }

  lemma {:induction false} RunPaid(w: World, actions: seq<Action>, quote: nat)
    requires quote < |w.db.quotes| && AllCurrent(w, actions)
    ensures |Run(w, actions).db.quotes| == |w.db.quotes|
    ensures Run(w, actions).db.quotes[quote].paid == w.db.quotes[quote].paid + CreditedAlong(w, actions, quote)
  {
    if actions != [] {
      var n := |actions| - 1;
      AllCurrentLast(w, actions);
      RunPaid(w, actions[..n], quote);
      StepPaid(Run(w, actions[..n]), actions[n], quote);
    }
  }

  /** No two unfinished charges hold one payment. */
  predicate LocksApart(w: World) {
    forall tx, tx' :: tx in w.inflight && tx' in w.inflight && tx != tx' ==>
      w.inflight[tx].payment != w.inflight[tx'].payment
  }

  /** The charge is unfinished, and the payment it holds is open. */
  predicate Holds(w: World, tx: nat) {
    tx in w.inflight && Open(w.db, w.inflight[tx].payment)
  }

  lemma HeldStep(w: World, a: Action, tx: nat)
    requires LocksApart(w) && Holds(w, tx) && a != Save(tx)
    ensures var w' := Act(w, a);
            && LocksApart(w') && Holds(w', tx) && w'.inflight[tx] == w.inflight[tx]
            && w'.db.payments[w.inflight[tx].payment] == w.db.payments[w.inflight[tx].payment]
  {}

  lemma {:induction false} HeldRun(w: World, actions: seq<Action>, tx: nat)
    requires LocksApart(w) && Holds(w, tx) && Save(tx) !in actions
    ensures var w' := Run(w, actions);
            && LocksApart(w') && Holds(w', tx) && w'.inflight[tx] == w.inflight[tx]
            && w'.db.payments[w.inflight[tx].payment] == w.db.payments[w.inflight[tx].payment]
  {
    if actions != [] {
      var n := |actions| - 1;
      assert actions[n] in actions;
      HeldRun(w, actions[..n], tx);
      HeldStep(Run(w, actions[..n]), actions[n], tx);
    }
  }

  /** A charge reads its quote, other charges read and commit, the charge saves: the tallies stay exact if and
      only if what was credited to that quote in between adds up to nothing. */
  lemma StaleCreditExact(w: World, tx: nat, reference: string, between: seq<Action>)
    requires Tallied(w.db) && LocksApart(w) && tx !in w.inflight
    requires var begun := Act(w, Read(tx, reference));
             tx in begun.inflight && Save(tx) !in between && AllCurrent(begun, between)
    ensures var begun := Act(w, Read(tx, reference));
            Tallied(Act(Run(begun, between), Save(tx)).db) <==>
              CreditedAlong(begun, between, QuoteOf(w.db, begun.inflight[tx].payment)) == 0
  {
    var begun := Act(w, Read(tx, reference));
    var quote := QuoteOf(w.db, begun.inflight[tx].payment);
    assert LocksApart(begun);
    HeldRun(begun, between, tx);
    RunPaid(begun, between, quote);
    RunTallied(begun, between);
    StepTalliedExactly(Run(begun, between), Save(tx));
  }

  // ---------------------------------------------------------------- one charge of a quote at a time

  /** Unfinished charges hold different open payments, of different quotes, and have read what is still there. */
  predicate OnePerQuote(w: World) {
    && (forall tx :: tx in w.inflight ==>
          Open(w.db, w.inflight[tx].payment) &&
          w.inflight[tx].seen == w.db.quotes[QuoteOf(w.db, w.inflight[tx].payment)])
    && (forall tx, tx' :: tx in w.inflight && tx' in w.inflight && tx != tx' ==>
          w.inflight[tx].payment != w.inflight[tx'].payment &&
          QuoteOf(w.db, w.inflight[tx].payment) != QuoteOf(w.db, w.inflight[tx'].payment))
  }

  /** A charge starts only when no unfinished charge is for the same quote, as a lock on the quote would have it. */
  predicate QuoteFree(w: World, a: Action) {
    a.Read? ==>
      match FindFirst(w.db.payments, WithReference(a.reference))
      case None => true
      case Some(i) =>
        Open(w.db, i) ==> forall tx :: tx in w.inflight ==>
          w.inflight[tx].payment < |w.db.payments| &&
          w.db.payments[w.inflight[tx].payment].quote != w.db.payments[i].quote
  }

  lemma SaveOnePerQuote(w: World, tx: nat)
    requires OnePerQuote(w) && tx in w.inflight
    ensures OnePerQuote(Act(w, Save(tx)))
  {
    var w' := Act(w, Save(tx));
    SaveMoves(w.db, w.inflight[tx]);
    forall other | other in w'.inflight
      ensures w'.db.payments[w.inflight[other].payment] == w.db.payments[w.inflight[other].payment]
      ensures Open(w'.db, w.inflight[other].payment)
      ensures w'.db.quotes[QuoteOf(w.db, w.inflight[other].payment)] ==
              w.db.quotes[QuoteOf(w.db, w.inflight[other].payment)]
    {
      assert other != tx;
    }
  }

  lemma ReadOnePerQuote(w: World, tx: nat, reference: string)
    requires OnePerQuote(w) && QuoteFree(w, Read(tx, reference))
    ensures OnePerQuote(Act(w, Read(tx, reference)))
  {}

  /** With such a lock every save is current, so no credit is lost. */
  lemma QuoteLockSuffices(w: World, a: Action)
    requires OnePerQuote(w) && QuoteFree(w, a)
    ensures Current(w, a) && OnePerQuote(Act(w, a))
  {
    match a
    case Read(tx, reference) => ReadOnePerQuote(w, tx, reference);
    case Save(tx) => if tx in w.inflight { SaveOnePerQuote(w, tx); }
  }

  predicate AllQuoteFree(w: World, actions: seq<Action>) {
    forall n :: 0 <= n < |actions| ==> QuoteFree(Run(w, actions[..n]), actions[n])
  }

  lemma AllQuoteFreeLast(w: World, actions: seq<Action>)
    requires actions != [] && AllQuoteFree(w, actions)
    ensures AllQuoteFree(w, actions[..|actions| - 1])
    ensures QuoteFree(Run(w, actions[..|actions| - 1]), actions[|actions| - 1])
  {
    var n := |actions| - 1;
    forall m | 0 <= m < n ensures QuoteFree(Run(w, actions[..n][..m]), actions[..n][m]) {
      assert actions[..n][..m] == actions[..m];
    }
  }

  /** Every run that starts no charge of a quote while another is unfinished loses no credit. */
  lemma {:induction false} LockedRunTallied(w: World, actions: seq<Action>)
    requires OnePerQuote(w) && AllQuoteFree(w, actions)
    ensures AllCurrent(w, actions) && OnePerQuote(Run(w, actions))
    ensures Tallied(w.db) ==> Tallied(Run(w, actions).db)
  {
    if actions != [] {
      var n := |actions| - 1;
      AllQuoteFreeLast(w, actions);
      LockedRunTallied(w, actions[..n]);
      QuoteLockSuffices(Run(w, actions[..n]), actions[n]);
      AllCurrentLast(w, actions);
      if Tallied(w.db) { RunTallied(w, actions); }
    }
  }

  // ---------------------------------------------------------------- two charges of one quote

  /** Two open payments of one quote are charged at once, both read before either saves: the quote ends up with
      the second amount alone, so the first is lost, unless it was zero. */
  lemma SecondSaveWins(db: Db, first: nat, second: nat)
    requires Tallied(db) && first != second && Open(db, first) && Open(db, second)
    requires QuoteOf(db, first) == QuoteOf(db, second)
    requires FindFirst(db.payments, WithReference(db.payments[first].reference)) == Some(first)
    requires FindFirst(db.payments, WithReference(db.payments[second].reference)) == Some(second)
    ensures var bothRead := Act(Act(World(db, map[]), Read(0, db.payments[first].reference)),
                             Read(1, db.payments[second].reference));
            var done := Act(Act(bothRead, Save(0)), Save(1)).db;
            var q := QuoteOf(db, first);
            && q < |done.quotes|
            && done.quotes[q].paid == db.quotes[q].paid + db.payments[second].amount
            && PaidSum(done, q) == db.quotes[q].paid + db.payments[first].amount + db.payments[second].amount
            && (done.quotes[q].paid == PaidSum(done, q) <==> db.payments[first].amount == 0)
  {
    var q := QuoteOf(db, first);
    var one := Act(World(db, map[]), Read(0, db.payments[first].reference));
    var bothRead := Act(one, Read(1, db.payments[second].reference));
    assert bothRead == World(db, map[0 := Credit(first, db.quotes[q]), 1 := Credit(second, db.quotes[q])]);
    var saved := Act(bothRead, Save(0));
    SaveMoves(db, bothRead.inflight[0]);
    assert saved.db == SaveCredit(db, bothRead.inflight[0]) && saved.inflight[1] == bothRead.inflight[1];
    SaveMoves(saved.db, saved.inflight[1]);
  }

  /** The ledger can get there: a quote's payment fails, another is opened, and then successes for both overlap.
      Of 200 paid, the quote is credited 100. */
  lemma ReachableCreditLost(failed: string, other: string)
    requires failed != other
    ensures var db := Ledger.Run(Empty(true), ReplacedBy(failed, other));
            var done := Act(Act(Act(Act(World(db, map[]), Read(0, failed)), Read(1, other)), Save(0)), Save(1)).db;
            && |done.quotes| == 1 && done.quotes[0].paid == 100 && PaidSum(done, 0) == 200
  {
    var db := Ledger.Run(Empty(true), ReplacedBy(failed, other));
    Replaced(failed, other);
    ReplacedTallied(failed, other);
    assert WithReference(failed)(db.payments[0]);
    assert FindFirst(db.payments, WithReference(failed)) == Some(0);
    assert WithReference(other)(db.payments[1]) && !WithReference(other)(db.payments[0]);
    assert FindFirst(db.payments, WithReference(other)) == Some(1);
    SecondSaveWins(db, 0, 1);
  }

  lemma ReplacedTallied(failed: string, other: string)
    ensures Tallied(Books(0, QuoteStatus.Issued,
                          [Charge(failed, PaymentStatus.Failed), Charge(other, PaymentStatus.Pending)]))
  {
    SumZero([Charge(failed, PaymentStatus.Failed), Charge(other, PaymentStatus.Pending)], PaidTo(0));
  }

  /** The same two charges one after the other lose nothing. */
  lemma OneAfterTheOther(db: Db, first: nat, second: nat)
    requires Tallied(db) && first != second && Open(db, first) && Open(db, second)
    requires FindFirst(db.payments, WithReference(db.payments[first].reference)) == Some(first)
    requires FindFirst(db.payments, WithReference(db.payments[second].reference)) == Some(second)
    ensures var w := Act(Act(World(db, map[]), Read(0, db.payments[first].reference)), Save(0));
            Tallied(Act(Act(w, Read(1, db.payments[second].reference)), Save(1)).db)
  {
    var one := Act(World(db, map[]), Read(0, db.payments[first].reference));
    StepTalliedExactly(one, Save(0));
    var w := Act(one, Save(0));
    var two := Act(w, Read(1, db.payments[second].reference));
    StepTalliedExactly(two, Save(1));
  }
}
