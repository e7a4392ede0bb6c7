/** Attribute assignment on a row, the way the update handlers do it: a loop
    that calls `setattr(row, key, value)` for every item of the payload's
    dict. An item `f` is one (column, value) pair: `column(f)` is the column
    it names, `assign(r, f)` is the row after the assignment and `get(r, k)` is
    the item row `r` currently holds for column `k`. */
module Attributes {
  import opened Optional

  /** The row after assigning the first `n` items, in order. */
  function SetAttrs<R, F>(assign: (R, F) -> R, row: R, items: seq<F>, n: nat): R
    requires n <= |items|
  {
    if n == 0 then row else assign(SetAttrs(assign, row, items, n - 1), items[n - 1])
  }

  /** The last of the first `n` items that names column `k`, if any. */
  function LastFor<K(==), F>(column: F -> K, items: seq<F>, n: nat, k: K): (r: Option<F>)
    requires n <= |items|
    ensures r.Some? ==> column(r.value) == k
    ensures r.Some? ==> exists i ::
      && 0 <= i < n && items[i] == r.value
      && forall j :: i < j < n ==> column(items[j]) != k
    ensures r.None? <==> forall i :: 0 <= i < n ==> column(items[i]) != k
  {
    if n == 0 then None
    else if column(items[n - 1]) == k then Some(items[n - 1])
    else LastFor(column, items, n - 1, k)
  }

  /** What makes `assign` an attribute assignment: it writes the named column
      and leaves every other column as it was. */
  ghost predicate Lawful<R(!new), K(!new), F(!new)>(assign: (R, F) -> R, get: (R, K) -> F, column: F -> K) {
    && (forall r, f :: get(assign(r, f), column(f)) == f)
    && (forall r, f, k :: k != column(f) ==> get(assign(r, f), k) == get(r, k))
  }

  /** The items of a dict name each column at most once. */
  ghost predicate DistinctColumns<K, F>(column: F -> K, items: seq<F>) {
    forall i, j :: 0 <= i < j < |items| ==> column(items[i]) != column(items[j])
  }

  /** After the first `n` assignments, column `k` holds the last item that
      named it, or its old value if none did. */
  lemma {:induction false} SetAttrsGet<R(!new), K(!new), F(!new)>(
    assign: (R, F) -> R, get: (R, K) -> F, column: F -> K, row: R, items: seq<F>, n: nat, k: K)
    requires Lawful(assign, get, column)
    requires n <= |items|
    ensures get(SetAttrs(assign, row, items, n), k) ==
      match LastFor(column, items, n, k)
      case Some(f) => f
      case None => get(row, k)
  {
    if n > 0 {
      SetAttrsGet(assign, get, column, row, items, n - 1, k);
    }
  }

  /** In a dict, the last item naming the column of item `i` is item `i`. */
  lemma {:induction false} LastForDistinct<K, F>(column: F -> K, items: seq<F>, n: nat, i: nat)
    requires DistinctColumns(column, items)
    requires i < n <= |items|
    ensures LastFor(column, items, n, column(items[i])) == Some(items[i])
  {
    if i < n - 1 {
      assert column(items[i]) != column(items[n - 1]);
      LastForDistinct(column, items, n - 1, i);
    }
  }

  /** Assigning a whole dict: every column the payload names ends up holding
      the payload's value, and every other column keeps its old value. */
  lemma SetAttrsOverwrites<R(!new), K(!new), F(!new)>(
    assign: (R, F) -> R, get: (R, K) -> F, column: F -> K, row: R, items: seq<F>)
    requires Lawful(assign, get, column)
    requires DistinctColumns(column, items)
    ensures forall i :: 0 <= i < |items| ==>
      get(SetAttrs(assign, row, items, |items|), column(items[i])) == items[i]
    ensures forall k :: (forall i :: 0 <= i < |items| ==> column(items[i]) != k) ==>
      get(SetAttrs(assign, row, items, |items|), k) == get(row, k)
  {
    forall i | 0 <= i < |items|
      ensures get(SetAttrs(assign, row, items, |items|), column(items[i])) == items[i]
    {
      SetAttrsGet(assign, get, column, row, items, |items|, column(items[i]));
      LastForDistinct(column, items, |items|, i);
    }
    forall k | forall i :: 0 <= i < |items| ==> column(items[i]) != k
      ensures get(SetAttrs(assign, row, items, |items|), k) == get(row, k)
    {
      SetAttrsGet(assign, get, column, row, items, |items|, k);
    }
  }
}
