/** Stock depletion and restocking, line by line (InventoryService). */
module Inventory {
  import opened Prelude

  /** A row of the product table; its id is its row number and prices are integer kobo. */
  datatype Product = Product(price: int, stock: int, threshold: int, archived: bool)

  /** One requested product and quantity; the product id may name no row. */
  datatype Line = Line(product: int, quantity: int)

  predicate Known(products: seq<Product>, pid: int) { 0 <= pid < |products| }

  function StockOf(products: seq<Product>, pid: int): int {
    if Known(products, pid) then products[pid].stock else 0
  }

  function QuantityOf(pid: int): Line -> int {
    (l: Line) => if l.product == pid then l.quantity else 0
  }

  /** Everything a list of lines asks of one product, however often it repeats. */
  function Requested(lines: seq<Line>, pid: int): int {
    Sum(lines, QuantityOf(pid))
  }

  predicate Positive(lines: seq<Line>) {
    forall i :: 0 <= i < |lines| ==> lines[i].quantity > 0
  }

  /** One turn of the depletion loop. `alertRaises` says whether raising the low-stock alert fails,
      as it does while the alert passes an argument the audit log does not take. */
  function Take(products: seq<Product>, line: Line, alertRaises: bool): Tx<seq<Product>> {
    if !Known(products, line.product) then Abort(NotFound)
    else
      var product := products[line.product];
      if product.stock < line.quantity then Abort(Invalid)
      else if alertRaises && product.stock - line.quantity <= product.threshold then Abort(Crashed)
      else Commit(products[line.product := product.(stock := product.stock - line.quantity)])
  }

  function Reduce(products: seq<Product>, lines: seq<Line>, alertRaises: bool): Tx<seq<Product>> {
    if lines == [] then Commit(products)
    else
      match Reduce(products, lines[..|lines| - 1], alertRaises)
      case Abort(e) => Abort(e)
      case Commit(taken) => Take(taken, lines[|lines| - 1], alertRaises)
  }

  function Adjust(products: seq<Product>, pid: int, amount: int, alertRaises: bool): Tx<seq<Product>> {
    if !Known(products, pid) then Abort(NotFound)
    else
      var product := products[pid];
      if product.stock + amount < 0 then Abort(Invalid)
      else if alertRaises && product.stock + amount <= product.threshold then Abort(Crashed)
      else Commit(products[pid := product.(stock := product.stock + amount)])
  }

  /** Puts every line back, as the cancellation of a paid order does. */
  function Restock(products: seq<Product>, lines: seq<Line>, alertRaises: bool): Tx<seq<Product>> {
    if lines == [] then Commit(products)
    else
      match Restock(products, lines[..|lines| - 1], alertRaises)
      case Abort(e) => Abort(e)
      case Commit(put) => Adjust(put, lines[|lines| - 1].product, lines[|lines| - 1].quantity, alertRaises)
  }

  /** Every requested product exists and its whole request fits in stock, clear of a failing alert. */
  predicate Coverable(products: seq<Product>, lines: seq<Line>, alertRaises: bool) {
    forall i :: 0 <= i < |lines| ==>
      var pid := lines[i].product;
      && Known(products, pid)
      && Requested(lines, pid) <= products[pid].stock
      && (alertRaises ==> products[pid].threshold < products[pid].stock - Requested(lines, pid))
  }

  /** `after` is `before` with `sign` times the requested totals added to the stock levels. */
  predicate Shifted(before: seq<Product>, after: seq<Product>, lines: seq<Line>, sign: int) {
    && |after| == |before|
    && forall pid :: 0 <= pid < |before| ==>
         after[pid] == before[pid].(stock := before[pid].stock + sign * Requested(lines, pid))
  }

  lemma RequestedSplit(lines: seq<Line>, pid: int)
    requires lines != []
    ensures Requested(lines, pid) ==
            Requested(lines[..|lines| - 1], pid) + QuantityOf(pid)(lines[|lines| - 1])
  {
  }

  lemma {:induction false} RequestedNonNegative(lines: seq<Line>, pid: int)
    requires Positive(lines)
    ensures 0 <= Requested(lines, pid)
    ensures forall i :: 0 <= i < |lines| && lines[i].product == pid ==> lines[i].quantity <= Requested(lines, pid)
  {
    forall i | 0 <= i < |lines| ensures 0 <= QuantityOf(pid)(lines[i]) {}
    SumNonNegative(lines, QuantityOf(pid));
    forall i | 0 <= i < |lines| && lines[i].product == pid ensures lines[i].quantity <= Requested(lines, pid) {
      assert QuantityOf(pid)(lines[i]) == lines[i].quantity;
    }
  }

  /** A line that is refused refuses the whole list, with that line's error. */
  lemma {:induction false} ReduceStops(products: seq<Product>, lines: seq<Line>, k: nat, alertRaises: bool)
    requires k <= |lines| && Reduce(products, lines[..k], alertRaises).Abort?
    ensures Reduce(products, lines, alertRaises) == Reduce(products, lines[..k], alertRaises)
  {
    if k == |lines| {
      assert lines[..k] == lines;
    } else {
      assert lines[..|lines| - 1][..k] == lines[..k];
      ReduceStops(products, lines[..|lines| - 1], k, alertRaises);
    }
  }

  lemma {:induction false} RestockStops(products: seq<Product>, lines: seq<Line>, k: nat, alertRaises: bool)
    requires k <= |lines| && Restock(products, lines[..k], alertRaises).Abort?
    ensures Restock(products, lines, alertRaises) == Restock(products, lines[..k], alertRaises)
  {
    if k == |lines| {
      assert lines[..k] == lines;
    } else {
      assert lines[..|lines| - 1][..k] == lines[..k];
      RestockStops(products, lines[..|lines| - 1], k, alertRaises);
    }
  }

  /** The loop succeeds exactly when the totals fit, and then removes exactly the totals. */
  lemma {:induction false} ReduceExact(products: seq<Product>, lines: seq<Line>, alertRaises: bool)
    requires Positive(lines)
    ensures Reduce(products, lines, alertRaises).Commit? <==> Coverable(products, lines, alertRaises)
    ensures Reduce(products, lines, alertRaises).Commit? ==>
              Shifted(products, Reduce(products, lines, alertRaises).state, lines, -1)
  {
    if lines != [] {
      var init, last := lines[..|lines| - 1], lines[|lines| - 1];
      ReduceExact(products, init, alertRaises);
      forall pid ensures Requested(lines, pid) == Requested(init, pid) + QuantityOf(pid)(last)
                 ensures 0 <= Requested(init, pid) <= Requested(lines, pid) {
        RequestedSplit(lines, pid);
        RequestedNonNegative(init, pid);
      }
      if Reduce(products, lines, alertRaises).Commit? {
        forall i | 0 <= i < |lines| ensures
          var pid := lines[i].product;
          && Known(products, pid)
          && Requested(lines, pid) <= products[pid].stock
          && (alertRaises ==> products[pid].threshold < products[pid].stock - Requested(lines, pid))
        {
          if i < |init| { assert init[i] == lines[i]; }
        }
      }
      if Coverable(products, lines, alertRaises) {
        forall i | 0 <= i < |init| ensures
          var pid := init[i].product;
          && Known(products, pid)
          && Requested(init, pid) <= products[pid].stock
          && (alertRaises ==> products[pid].threshold < products[pid].stock - Requested(init, pid))
        {
          assert init[i] == lines[i];
        }
        assert lines[|init|] == last;
      }
    }
  }

  lemma RequestedReordered(a: seq<Line>, b: seq<Line>)
    requires multiset(a) == multiset(b)
    ensures forall pid :: Requested(a, pid) == Requested(b, pid)
  {
    forall pid ensures Requested(a, pid) == Requested(b, pid) {
      SumPermutation(a, b, QuantityOf(pid));
    }
  }

  lemma ShiftedAlike(products: seq<Product>, x: seq<Product>, y: seq<Product>, a: seq<Line>, b: seq<Line>)
    requires Shifted(products, x, a, -1) && Shifted(products, y, b, -1)
    requires forall pid :: Requested(a, pid) == Requested(b, pid)
    ensures x == y
  {}

  lemma CoverableAlike(products: seq<Product>, a: seq<Line>, b: seq<Line>, alertRaises: bool)
    requires multiset(a) == multiset(b)
    ensures Coverable(products, a, alertRaises) <==> Coverable(products, b, alertRaises)
  {
    RequestedReordered(a, b);
    if Coverable(products, a, alertRaises) { CoverableReordered(products, a, b, alertRaises); }
    if Coverable(products, b, alertRaises) { CoverableReordered(products, b, a, alertRaises); }
  }

  /** Reordering the lines changes neither whether they fit nor what is left. */
  lemma ReduceOrderIrrelevant(products: seq<Product>, a: seq<Line>, b: seq<Line>, alertRaises: bool)
    requires Positive(a) && Positive(b) && multiset(a) == multiset(b)
    ensures Reduce(products, a, alertRaises).Commit? <==> Reduce(products, b, alertRaises).Commit?
    ensures Reduce(products, a, alertRaises).Commit? ==>
              Reduce(products, a, alertRaises) == Reduce(products, b, alertRaises)
  {
    ReduceExact(products, a, alertRaises);
    ReduceExact(products, b, alertRaises);
    CoverableAlike(products, a, b, alertRaises);
    if Reduce(products, a, alertRaises).Commit? {
      RequestedReordered(a, b);
      ShiftedAlike(products, Reduce(products, a, alertRaises).state, Reduce(products, b, alertRaises).state, a, b);
    }
  }

  lemma CoverableReordered(products: seq<Product>, a: seq<Line>, b: seq<Line>, alertRaises: bool)
    requires multiset(a) == multiset(b) && Coverable(products, a, alertRaises)
    requires forall pid :: Requested(a, pid) == Requested(b, pid)
    ensures Coverable(products, b, alertRaises)
  {
    forall i | 0 <= i < |b| ensures
      var pid := b[i].product;
      && Known(products, pid)
      && Requested(b, pid) <= products[pid].stock
      && (alertRaises ==> products[pid].threshold < products[pid].stock - Requested(b, pid))
    {
      assert b[i] in multiset(b);
      assert b[i] in multiset(a);
    }
  }

  /** A committed restock adds exactly the totals. */
  lemma {:induction false} RestockExact(products: seq<Product>, lines: seq<Line>, alertRaises: bool)
    requires Restock(products, lines, alertRaises).Commit?
    ensures Shifted(products, Restock(products, lines, alertRaises).state, lines, 1)
    ensures forall i :: 0 <= i < |lines| ==> Known(products, lines[i].product)
  {
    if lines != [] {
      var init, last := lines[..|lines| - 1], lines[|lines| - 1];
      RestockExact(products, init, alertRaises);
      forall pid ensures Requested(lines, pid) == Requested(init, pid) + QuantityOf(pid)(last) {
        RequestedSplit(lines, pid);
      }
      forall i | 0 <= i < |lines| ensures Known(products, lines[i].product) {
        if i < |init| { assert init[i] == lines[i]; }
      }
    }
  }

  /** No line puts back an unknown product, and none leaves a level that sets off a failing alert. */
  predicate Restockable(products: seq<Product>, lines: seq<Line>, alertRaises: bool) {
    forall i :: 0 <= i < |lines| ==>
      var pid := lines[i].product;
      Known(products, pid) &&
      (alertRaises ==> products[pid].threshold < products[pid].stock + Requested(lines[..i + 1], pid))
  }

  predicate NoNegativeStock(products: seq<Product>, lines: seq<Line>) {
    forall i :: 0 <= i < |lines| && Known(products, lines[i].product) ==> 0 <= products[lines[i].product].stock
  }

  /** A list can be put back when all but its last line can, and the last line lifts its product clear too. */
  lemma RestockableLast(products: seq<Product>, lines: seq<Line>, alertRaises: bool)
    requires lines != []
    ensures var n := |lines| - 1;
            var pid := lines[n].product;
            Restockable(products, lines, alertRaises) <==>
              Restockable(products, lines[..n], alertRaises) && Known(products, pid) &&
              (alertRaises ==> products[pid].threshold < products[pid].stock + Requested(lines, pid))
  {
    var n := |lines| - 1;
    assert lines[..n + 1] == lines;
    forall i | 0 <= i < n ensures lines[..n][..i + 1] == lines[..i + 1] && lines[..n][i] == lines[i] {}
  }

  lemma NoNegativeStockInit(products: seq<Product>, lines: seq<Line>)
    requires lines != [] && Positive(lines) && NoNegativeStock(products, lines)
    ensures Positive(lines[..|lines| - 1]) && NoNegativeStock(products, lines[..|lines| - 1])
  {
    forall i | 0 <= i < |lines| - 1 ensures lines[..|lines| - 1][i] == lines[i] {}
  }

  /** A restock commits exactly when every product exists and each line lifts it clear of a failing alert. */
  lemma {:induction false} RestockCommitsExactly(products: seq<Product>, lines: seq<Line>, alertRaises: bool)
    requires Positive(lines) && NoNegativeStock(products, lines)
    ensures Restock(products, lines, alertRaises).Commit? <==> Restockable(products, lines, alertRaises)
  {
    if lines != [] {
      var n := |lines| - 1;
      var last := lines[n];
      NoNegativeStockInit(products, lines);
      RestockCommitsExactly(products, lines[..n], alertRaises);
      RestockableLast(products, lines, alertRaises);
      if Restock(products, lines[..n], alertRaises).Commit? {
        RestockExact(products, lines[..n], alertRaises);
        RequestedSplit(lines, last.product);
        RequestedNonNegative(lines[..n], last.product);
      }
    }
  }

  /** What a depletion took can always be put back, failing alert or not, and that restores every product. */
  lemma RestockUndoesReduce(products: seq<Product>, lines: seq<Line>, alertRaises: bool)
    requires Positive(lines)
    requires Reduce(products, lines, alertRaises).Commit?
    ensures Restock(Reduce(products, lines, alertRaises).state, lines, alertRaises) == Commit(products)
  {
    var taken := Reduce(products, lines, alertRaises).state;
    ReduceExact(products, lines, alertRaises);
    forall i | 0 <= i < |lines|
      ensures 0 <= Requested(lines[..i + 1], lines[i].product)
    {
      RequestedNonNegative(lines[..i + 1], lines[i].product);
    }
    assert NoNegativeStock(taken, lines) && Restockable(taken, lines, alertRaises);
    RestockCommitsExactly(taken, lines, alertRaises);
    RestockExact(taken, lines, alertRaises);
    assert Restock(taken, lines, alertRaises).state == products;
  }

  /** Some line fits, with all before it, but leaves its product at its threshold or below. */
  predicate AlertStops(products: seq<Product>, lines: seq<Line>) {
    exists k :: 0 <= k < |lines| && StopsAt(products, lines, k)
  }

  predicate StopsAt(products: seq<Product>, lines: seq<Line>, k: nat)
    requires k < |lines|
  {
    var pid := lines[k].product;
    && Coverable(products, lines[..k], true)
    && Known(products, pid)
    && 0 <= products[pid].stock - Requested(lines[..k + 1], pid) <= products[pid].threshold
  }

  /** A depletion crashes exactly when the alert fails and the lines set it off before they run out of stock. */
  lemma {:induction false} ReduceCrashesExactly(products: seq<Product>, lines: seq<Line>, alertRaises: bool)
    requires Positive(lines)
    ensures Reduce(products, lines, alertRaises) == Abort(Crashed) <==> alertRaises && AlertStops(products, lines)
  {
    if lines != [] {
      var n := |lines| - 1;
      var init, last := lines[..n], lines[n];
      assert Positive(init);
      ReduceCrashesExactly(products, init, alertRaises);
      EarlierStops(products, lines);
      ReduceExact(products, init, alertRaises);
      assert lines[..n + 1] == lines;
      RequestedSplit(lines, last.product);
    }
  }

  lemma EarlierStops(products: seq<Product>, lines: seq<Line>)
    requires lines != []
    ensures AlertStops(products, lines) <==>
            AlertStops(products, lines[..|lines| - 1]) || StopsAt(products, lines, |lines| - 1)
  {
    var n := |lines| - 1;
    var init := lines[..n];
    forall k | 0 <= k < n
      ensures StopsAt(products, init, k) <==> StopsAt(products, lines, k)
    {
      assert init[..k] == lines[..k] && init[..k + 1] == lines[..k + 1] && init[k] == lines[k];
    }
  }
}
