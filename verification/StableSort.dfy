/** A stable sort by a numeric key: what `orderBy` and `Array.prototype.sort` promise. */
module StableSort {
  import opened Sums

  ghost predicate Ascends<T>(rows: seq<T>, key: T -> int) {
    forall i, j | 0 <= i < j < |rows| :: key(rows[i]) <= key(rows[j])
  }

  /** After every row whose key is not larger. */
  function Inserted<T>(rows: seq<T>, key: T -> int, row: T): seq<T> {
    if rows == [] || key(rows[|rows| - 1]) <= key(row) then rows + [row]
    else Inserted(rows[..|rows| - 1], key, row) + [rows[|rows| - 1]]
  }

  function SortedBy<T>(rows: seq<T>, key: T -> int): seq<T> {
    if rows == [] then [] else Inserted(SortedBy(rows[..|rows| - 1], key), key, rows[|rows| - 1])
  }

  lemma {:induction false} InsertedAtMost<T>(rows: seq<T>, key: T -> int, row: T, most: int)
    requires key(row) <= most && forall i | 0 <= i < |rows| :: key(rows[i]) <= most
    ensures forall i | 0 <= i < |Inserted(rows, key, row)| :: key(Inserted(rows, key, row)[i]) <= most
  {
    if rows != [] { InsertedAtMost(rows[..|rows| - 1], key, row, most); }
  }

  lemma {:induction false} InsertedAscends<T>(rows: seq<T>, key: T -> int, row: T)
    requires Ascends(rows, key)
    ensures Ascends(Inserted(rows, key, row), key)
  {
    if !(rows == [] || key(rows[|rows| - 1]) <= key(row)) {
      var rest, last := rows[..|rows| - 1], rows[|rows| - 1];
      InsertedAscends(rest, key, row);
      InsertedAtMost(rest, key, row, key(last));
      LargestLast(Inserted(rest, key, row), key, last);
    }
  }

  lemma {:induction false} InsertedRows<T>(rows: seq<T>, key: T -> int, row: T)
    ensures multiset(Inserted(rows, key, row)) == multiset(rows) + multiset{row}
  {
    if !(rows == [] || key(rows[|rows| - 1]) <= key(row)) {
      assert rows == rows[..|rows| - 1] + [rows[|rows| - 1]];
      InsertedRows(rows[..|rows| - 1], key, row);
    }
  }

  lemma LargestLast<T>(before: seq<T>, key: T -> int, last: T)
    requires Ascends(before, key) && forall i | 0 <= i < |before| :: key(before[i]) <= key(last)
    ensures Ascends(before + [last], key)
  {
  }

  lemma {:induction false} SortedAscends<T>(rows: seq<T>, key: T -> int)
    ensures Ascends(SortedBy(rows, key), key) && multiset(SortedBy(rows, key)) == multiset(rows)
  {
    if rows != [] {
      var rest, last := rows[..|rows| - 1], rows[|rows| - 1];
      assert rows == rest + [last];
      SortedAscends(rest, key);
      InsertedAscends(SortedBy(rest, key), key, last);
      InsertedRows(SortedBy(rest, key), key, last);
    }
  }

  function WithKeyOf<T>(key: T -> int, k: int): T -> bool { (row: T) => key(row) == k }

  lemma {:induction false} InsertedStable<T>(rows: seq<T>, key: T -> int, row: T, k: int)
    ensures Where(Inserted(rows, key, row), WithKeyOf(key, k)) ==
      Where(rows, WithKeyOf(key, k)) + if key(row) == k then [row] else []
  {
    if rows == [] || key(rows[|rows| - 1]) <= key(row) {
      assert (rows + [row])[..|rows|] == rows;
    } else {
      var rest, last := rows[..|rows| - 1], rows[|rows| - 1];
      InsertedStable(rest, key, row, k);
      assert (Inserted(rest, key, row) + [last])[..|Inserted(rest, key, row)|] == Inserted(rest, key, row);
    }
  }

  /** The sort is stable: rows with the same key stay in the order they came in. */
  lemma {:induction false} SortedStable<T>(rows: seq<T>, key: T -> int, k: int)
    ensures Where(SortedBy(rows, key), WithKeyOf(key, k)) == Where(rows, WithKeyOf(key, k))
  {
    if rows != [] {
      SortedStable(rows[..|rows| - 1], key, k);
      InsertedStable(SortedBy(rows[..|rows| - 1], key), key, rows[|rows| - 1], k);
    }
  }

  lemma InsertedMembers<T>(rows: seq<T>, key: T -> int, row: T)
    ensures forall x :: x in Inserted(rows, key, row) <==> x in rows || x == row
  {
    InsertedRows(rows, key, row);
    hide Inserted;
    forall x ensures x in Inserted(rows, key, row) <==> x in rows || x == row {
      assert x in Inserted(rows, key, row) <==> x in multiset(Inserted(rows, key, row));
    }
  }
}
