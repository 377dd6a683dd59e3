/** The row materializer of `select`: it drains a cursor into one column-name
    to value map per row. */
module Materializer {
  import opened Jdbc

  /** The map after the first `n` columns of a row have been put, in column order. */
  function RowUpTo(columns: seq<string>, values: seq<Value>, n: nat): (row: Row)
    requires |values| == |columns| && n <= |columns|
  {
    if n == 0 then map[] else RowUpTo(columns, values, n - 1)[columns[n - 1] := values[n - 1]]
  }

  /** The map built for one cursor row. */
  function RowOf(columns: seq<string>, values: seq<Value>): (row: Row)
    requires |values| == |columns|
  {
    RowUpTo(columns, values, |columns|)
  }

  /** The list after the given cursor rows have been appended, in cursor order. */
  function Materialize(columns: seq<string>, rows: seq<seq<Value>>): (maps: seq<Row>)
    requires Rectangular(columns, rows)
    ensures |maps| == |rows|
  {
    if |rows| == 0 then []
    else Materialize(columns, rows[..|rows| - 1]) + [RowOf(columns, rows[|rows| - 1])]
  }

  /** The keys of a row map are the names of the columns put so far. */
  lemma {:induction false} RowUpToKeys(columns: seq<string>, values: seq<Value>, n: nat)
    requires |values| == |columns| && n <= |columns|
    ensures RowUpTo(columns, values, n).Keys == set j | 0 <= j < n :: columns[j]
  {
    if n > 0 {
      RowUpToKeys(columns, values, n - 1);
      assert (set j | 0 <= j < n :: columns[j]) == (set j | 0 <= j < n - 1 :: columns[j]) + {columns[n - 1]};
    }
  }

  /** A name that occurs last at column j (among the first n) maps to that column's value. */
  lemma {:induction false} RowUpToLastWins(columns: seq<string>, values: seq<Value>, n: nat, j: nat)
    requires |values| == |columns| && j < n <= |columns|
    requires forall k :: j < k < n ==> columns[k] != columns[j]
    ensures columns[j] in RowUpTo(columns, values, n)
    ensures RowUpTo(columns, values, n)[columns[j]] == values[j]
  {
    if j < n - 1 {
      RowUpToLastWins(columns, values, n - 1, j);
    }
  }

  /** The key set of a row map equals the set of column names. */
  lemma RowOfKeys(columns: seq<string>, values: seq<Value>)
    requires |values| == |columns|
    ensures RowOf(columns, values).Keys == set name | name in columns
  {
    RowUpToKeys(columns, values, |columns|);
    var byIndex := set j | 0 <= j < |columns| :: columns[j];
    assert byIndex == set name | name in columns by {
      forall name | name in columns ensures name in byIndex {
        var j :| 0 <= j < |columns| && columns[j] == name;
      }
    }
  }

  /** A repeated column name keeps the value of its last column. */
  lemma RowOfLastWins(columns: seq<string>, values: seq<Value>, j: nat)
    requires |values| == |columns| && j < |columns|
    requires forall k :: j < k < |columns| ==> columns[k] != columns[j]
    ensures columns[j] in RowOf(columns, values)
    ensures RowOf(columns, values)[columns[j]] == values[j]
  {
    RowUpToLastWins(columns, values, |columns|, j);
  }

  /** Map i is the map of cursor row i, for every row. */
  lemma {:induction false} MaterializeShape(columns: seq<string>, rows: seq<seq<Value>>)
    requires Rectangular(columns, rows)
    ensures forall i :: 0 <= i < |rows| ==> Materialize(columns, rows)[i] == RowOf(columns, rows[i])
  {
    if |rows| > 0 {
      MaterializeShape(columns, rows[..|rows| - 1]);
    }
  }

  /** Materializing the first k cursor rows gives the first k maps of the full result. */
  lemma MaterializePrefix(columns: seq<string>, rows: seq<seq<Value>>, k: nat)
    requires Rectangular(columns, rows) && k <= |rows|
    ensures Rectangular(columns, rows[..k])
    ensures Materialize(columns, rows[..k]) == Materialize(columns, rows)[..k]
  {
    MaterializeShape(columns, rows);
    MaterializeShape(columns, rows[..k]);
  }

  /** The inner loop `for (i = 0; i < columnCount; i++) map.put(name(i + 1), getObject(i + 1))`. */
  method BuildRow(columns: seq<string>, values: seq<Value>) returns (row: Row)
    requires |values| == |columns|
    ensures row == RowOf(columns, values)
  {
    row := map[];
    for i := 0 to |columns|
      invariant row == RowUpTo(columns, values, i)
    {
      row := row[columns[i] := values[i]];
    }
  }
}
