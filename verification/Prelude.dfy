/** Shared vocabulary: optional values, transaction outcomes, and sums and searches over table rows. */
module Prelude {

  datatype Option<+T> = None | Some(value: T)

  /** Why a service call was refused; every refusal rolls its transaction back. */
  datatype Error = NotFound | Invalid | Denied | Conflict | ProviderFailed | Crashed

  /** Outcome of a `transaction.atomic` block: the state it commits, or the reason it rolled back. */
  datatype Tx<+S> = Commit(state: S) | Abort(error: Error)

  /** A call committed what its transaction says, or reported its error and left the state alone. */
  predicate Reflects<S(==)>(outcome: Option<Error>, tx: Tx<S>, before: S, after: S) {
    match tx
    case Commit(state) => outcome.None? && after == state
    case Abort(e) => outcome == Some(e) && after == before
  }

  /** Instants and spans are whole microseconds, the resolution of the stored timestamps. */
  const HOUR: int := 3600 * 1000000
  const DAY: int := 24 * HOUR

  function Max(a: int, b: int): int { if a < b then b else a }

  /** The total of a measure over the rows of a table. */
  function Sum<T>(rows: seq<T>, f: T -> int): int {
    if rows == [] then 0 else Sum(rows[..|rows| - 1], f) + f(rows[|rows| - 1])
  }

  lemma SumAppend<T>(rows: seq<T>, x: T, f: T -> int)
    ensures Sum(rows + [x], f) == Sum(rows, f) + f(x)
  {
    assert (rows + [x])[..|rows|] == rows;
  }

  /** Rewriting one row moves the total by exactly the difference of the two rows. */
  lemma {:induction false} SumUpdate<T>(rows: seq<T>, i: nat, x: T, f: T -> int)
    requires i < |rows|
    ensures Sum(rows[i := x], f) == Sum(rows, f) - f(rows[i]) + f(x)
  {
    var n := |rows| - 1;
    if i == n {
      assert rows[i := x][..n] == rows[..n];
    } else {
      assert rows[i := x][..n] == rows[..n][i := x];
      SumUpdate(rows[..n], i, x, f);
    }
  }

  lemma {:induction false} SumMonotone<T>(rows: seq<T>, rows': seq<T>, f: T -> int)
    requires |rows| == |rows'|
    requires forall i :: 0 <= i < |rows| ==> f(rows[i]) <= f(rows'[i])
    ensures Sum(rows, f) <= Sum(rows', f)
  {
    if rows != [] {
      var n := |rows| - 1;
      SumMonotone(rows[..n], rows'[..n], f);
    }
  }

  lemma {:induction false} SumZero<T>(rows: seq<T>, f: T -> int)
    requires forall i :: 0 <= i < |rows| ==> f(rows[i]) == 0
    ensures Sum(rows, f) == 0
  {
    if rows != [] {
      SumZero(rows[..|rows| - 1], f);
    }
  }

  lemma {:induction false} SumNonNegative<T>(rows: seq<T>, f: T -> int)
    requires forall i :: 0 <= i < |rows| ==> 0 <= f(rows[i])
    ensures 0 <= Sum(rows, f)
    ensures forall i :: 0 <= i < |rows| ==> f(rows[i]) <= Sum(rows, f)
  {
    if rows != [] {
      SumNonNegative(rows[..|rows| - 1], f);
    }
  }

  lemma {:induction false} SumConcat<T>(a: seq<T>, b: seq<T>, f: T -> int)
    ensures Sum(a + b, f) == Sum(a, f) + Sum(b, f)
  {
    if b == [] {
      assert a + b == a;
    } else {
      var n := |b| - 1;
      assert (a + b)[..|a + b| - 1] == a + b[..n];
      SumConcat(a, b[..n], f);
    }
  }

  /** A total does not depend on the order of the rows. */
  lemma {:induction false} SumPermutation<T>(a: seq<T>, b: seq<T>, f: T -> int)
    requires multiset(a) == multiset(b)
    ensures Sum(a, f) == Sum(b, f)
    decreases |a|
  {
    if a == [] {
      assert |multiset(b)| == 0;
    } else {
      var n := |a| - 1;
      var x := a[n];
      assert a == a[..n] + [x];
      assert x in multiset(b);
      var k :| 0 <= k < |b| && b[k] == x;
      assert b == b[..k] + [x] + b[k + 1..];
      var rest := b[..k] + b[k + 1..];
      assert multiset(a) == multiset(a[..n]) + multiset{x};
      assert multiset(b) == multiset(rest) + multiset{x};
      assert multiset(a[..n]) == multiset(a) - multiset{x} == multiset(b) - multiset{x} == multiset(rest);
      SumPermutation(a[..n], rest, f);
      SumConcat(b[..k], [x], f);
      SumConcat(b[..k] + [x], b[k + 1..], f);
      SumConcat(b[..k], b[k + 1..], f);
      assert Sum([x], f) == f(x);
    }
  }

  /** The first row a filter selects, as `filter(...).first()`. */
  function FindFirst<T>(rows: seq<T>, p: T -> bool): (r: Option<nat>)
    ensures r.Some? ==> r.value < |rows| && p(rows[r.value]) && forall i :: 0 <= i < r.value ==> !p(rows[i])
    ensures r.None? ==> forall i :: 0 <= i < |rows| ==> !p(rows[i])
  {
    if rows == [] then None
    else
      var before := FindFirst(rows[..|rows| - 1], p);
      if before.Some? then before
      else if p(rows[|rows| - 1]) then Some(|rows| - 1)
      else None
  }

  lemma SomeMember(s: set<int>)
    ensures s != {} ==> exists x :: x in s
  {
    if forall x :: x !in s { assert s == {}; }
  }
}
