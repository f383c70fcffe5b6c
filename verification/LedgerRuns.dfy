/** The guarantees a deployment actually has: runs in which payments are never escalated, cancellation goes
    through the payment API, and successful charges reach payments that are pending or already settled. */
module LedgerRuns {
  import opened Prelude
  import opened Ledger
  import opened LedgerStructure
  import opened QuoteBook
  import opened OrderBook

  predicate Disciplined(db: Db, c: Command) {
    match c
    case EscalatePayment(_) => false
    case CancelPayment(p) => PaymentExists(db, p) ==> !db.payments[p].status.Paid?
    case Webhook(reference, Success) =>
      var found := FindFirst(db.payments, WithReference(reference));
      found.Some? ==> db.payments[found.value].status.Pending? || Settled(db.payments[found.value].status)
    case _ => true
  }

  predicate DisciplinedRun(db: Db, commands: seq<Command>) {
    forall n :: 0 <= n < |commands| ==> Disciplined(Run(db, commands[..n]), commands[n])
  }

  lemma DisciplinedIsSafe(db: Db, c: Command)
    requires Disciplined(db, c)
    ensures KeepsBalance(db, c) && KeepsFunding(db, c)
  {}

  lemma RunIsSafe(db: Db, commands: seq<Command>)
    requires DisciplinedRun(db, commands)
    ensures AllSafe(db, commands) && AllHarmless(db, commands)
  {
    forall n | 0 <= n < |commands|
      ensures KeepsBalance(Run(db, commands[..n]), commands[n]) && KeepsFunding(Run(db, commands[..n]), commands[n])
    {
      DisciplinedIsSafe(Run(db, commands[..n]), commands[n]);
    }
  }

  /** From the empty ledger, after any disciplined run: no quote has two pending payments; what a quote has
      been credited is the sum of its paid payments and leaves room for the pending one; every paid or
      fulfilled order has a paid payment of exactly its total; no stock level is negative. */
  lemma DisciplinedRunsBalance(commands: seq<Command>, alertRaises: bool)
    requires DisciplinedRun(Empty(alertRaises), commands)
    ensures var db := Run(Empty(alertRaises), commands);
            && (forall i, j :: 0 <= i < j < |db.payments| && db.payments[i].quote.Some? &&
                               db.payments[i].status.Pending? && db.payments[j].status.Pending? ==>
                  db.payments[i].quote != db.payments[j].quote)
            && (forall q :: 0 <= q < |db.quotes| ==>
                  db.quotes[q].paid == PaidSum(db, q) &&
                  db.quotes[q].paid + PendingSum(db, q) <= Max(0, db.quotes[q].amount))
            && (forall o :: 0 <= o < |db.orders| && (db.orders[o].status.Paid? || db.orders[o].status.Fulfilled?) ==>
                  exists i :: 0 <= i < |db.payments| && db.payments[i].order == Some(o) &&
                              db.payments[i].status.Paid? && db.payments[i].amount == db.orders[o].total)
            && (forall p :: 0 <= p < |db.products| ==> 0 <= db.products[p].stock)
  {
    var start := Empty(alertRaises);
    RunIsSafe(start, commands);
    RunBalanced(start, commands);
    RunFunded(start, commands);
    var db := Run(start, commands);
    forall q | 0 <= q < |db.quotes|
      ensures db.quotes[q].paid == PaidSum(db, q)
      ensures db.quotes[q].paid + PendingSum(db, q) <= Max(0, db.quotes[q].amount)
    {
      assert Balanced(db, q);
    }
    forall i, j | 0 <= i < j < |db.payments| && db.payments[i].quote.Some? &&
                  db.payments[i].status.Pending? && db.payments[j].status.Pending?
      ensures db.payments[i].quote != db.payments[j].quote
    {
      assert Apart(db.payments[i], db.payments[j]);
    }
    forall o | 0 <= o < |db.orders| && Honoured(db.orders[o].status)
      ensures exists i :: 0 <= i < |db.payments| && db.payments[i].order == Some(o) &&
                          db.payments[i].status.Paid? && db.payments[i].amount == db.orders[o].total
    {
      assert Funded(db, o);
      var i :| 0 <= i < |db.payments| && Funds(db.payments[i], o, db.orders[o].total);
      assert db.payments[i].order == Some(o);
    }
  }
}
