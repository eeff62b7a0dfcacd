/** Sums over tables: the SQL `sum(...)` of the repositories, and its update laws. */
module Sums {

  /** Sum of `f` over the rows of a table kept as a sequence. */
  function SumOf<T>(rows: seq<T>, f: T -> int): int {
    if rows == [] then 0 else SumOf(rows[..|rows| - 1], f) + f(rows[|rows| - 1])
  }

  lemma SumAppend<T>(rows: seq<T>, row: T, f: T -> int)
    ensures SumOf(rows + [row], f) == SumOf(rows, f) + f(row)
  {
  }

  lemma {:induction false} SumUpdate<T>(rows: seq<T>, i: nat, row: T, f: T -> int)
    requires i < |rows|
    ensures SumOf(rows[i := row], f) == SumOf(rows, f) - f(rows[i]) + f(row)
  {
    var n := |rows| - 1;
    if i == n {
      assert rows[i := row][..n] == rows[..n];
    } else {
      assert rows[i := row][..n] == rows[..n][i := row];
      SumUpdate(rows[..n], i, row, f);
    }
  }

  /** Row by row no larger: no larger in total. */
  lemma {:induction false} SumAtMost<S, T>(left: seq<S>, f: S -> int, right: seq<T>, g: T -> int)
    requires |left| == |right|
    requires forall i | 0 <= i < |left| :: f(left[i]) <= g(right[i])
    ensures SumOf(left, f) <= SumOf(right, g)
  {
    if left != [] {
      var n := |left| - 1;
      SumAtMost(left[..n], f, right[..n], g);
    }
  }

  lemma {:induction false} SumNonNegative<T>(rows: seq<T>, f: T -> int)
    requires forall i | 0 <= i < |rows| :: 0 <= f(rows[i])
    ensures 0 <= SumOf(rows, f)
    ensures forall i | 0 <= i < |rows| :: f(rows[i]) <= SumOf(rows, f)
  {
    if rows != [] {
      SumNonNegative(rows[..|rows| - 1], f);
    }
  }

  /** The rows a query selects, in table order. */
  function Where<T>(rows: seq<T>, p: T -> bool): seq<T> {
    if rows == [] then []
    else
      var last := rows[|rows| - 1];
      Where(rows[..|rows| - 1], p) + if p(last) then [last] else []
  }

  /** Summing a figure that is zero off the selection is summing the column over the selection. */
  lemma {:induction false} SumWhere<T>(rows: seq<T>, p: T -> bool, column: T -> int, figure: T -> int)
    requires forall i | 0 <= i < |rows| :: figure(rows[i]) == if p(rows[i]) then column(rows[i]) else 0
    ensures SumOf(rows, figure) == SumOf(Where(rows, p), column)
  {
    if rows != [] {
      var rest, last := rows[..|rows| - 1], rows[|rows| - 1];
      SumWhere(rest, p, column, figure);
      if p(last) { SumAppend(Where(rest, p), last, column); } else { assert Where(rest, p) + [] == Where(rest, p); }
    }
  }

  function Itself(x: int): int { x }

  /** Sum of `f` over the values of a map, in whatever order they come. */
  ghost function SumOver<K, V>(m: map<K, V>, f: V -> int): int
    decreases |m|
  {
    if m == map[] then 0 else
      var k :| k in m;
      assert k !in m - {k};
      Smaller(m, k);
      f(m[k]) + SumOver(m - {k}, f)
  }

  lemma Smaller<K, V>(m: map<K, V>, k: K)
    requires k in m
    ensures |m - {k}| < |m|
  {
  }

  /** The order in which the values are taken does not matter. */
  lemma {:induction false} SumTakeOut<K, V>(m: map<K, V>, k: K, f: V -> int)
    requires k in m
    ensures SumOver(m, f) == f(m[k]) + SumOver(m - {k}, f)
    decreases |m|
  {
    Smaller(m, k);
    var p :| p in m && SumOver(m, f) == f(m[p]) + SumOver(m - {p}, f);
    if p != k {
      Smaller(m, p);
      SumTakeOut(m - {p}, k, f);
      SumTakeOut(m - {k}, p, f);
      assert m - {p} - {k} == m - {k} - {p};
    }
  }

  lemma SumPut<K, V>(m: map<K, V>, k: K, v: V, f: V -> int)
    ensures SumOver(m[k := v], f) == SumOver(m, f) - (if k in m then f(m[k]) else 0) + f(v)
  {
    SumTakeOut(m[k := v], k, f);
    if k in m {
      SumTakeOut(m, k, f);
      assert m[k := v] - {k} == m - {k};
    } else {
      assert m[k := v] - {k} == m;
    }
  }

  lemma AnyOf<T>(s: set<T>) returns (x: T)
    requires s != {}
    ensures x in s
  {
    x :| x in s;
  }
}
