/** The row filters the handlers apply to store tables: a table is the
    sequence of its rows, and a query returns the rows it selects in table
    order. */
module Query {

  /** The rows that satisfy `keep` (the conjunction of `.eq`, `.gte`,
      `.lte` and `.in` filters of a query). */
  function Where<R>(table: seq<R>, keep: R -> bool): (r: seq<R>)
    ensures |r| <= |table|
    ensures forall k :: 0 <= k < |r| ==> r[k] in table && keep(r[k])
    ensures forall k :: 0 <= k < |table| && keep(table[k]) ==> table[k] in r
    ensures |r| == 0 <==> forall k :: 0 <= k < |table| ==> !keep(table[k])
    decreases |table|
  {
    if |table| == 0 then []
    else if keep(table[0]) then [table[0]] + Where(table[1..], keep)
    else Where(table[1..], keep)
  }

  /** Filtering keeps every row when every row qualifies. */
  lemma {:induction false} WhereAll<R>(table: seq<R>, keep: R -> bool)
    requires forall k :: 0 <= k < |table| ==> keep(table[k])
    ensures Where(table, keep) == table
    decreases |table|
  {
    if |table| > 0 {
      WhereAll(table[1..], keep);
      assert table == [table[0]] + table[1..];
    }
  }

  /** `.in(column, values)`: the rows whose `key` is one of `values`. */
  function In<R>(table: seq<R>, key: R -> string, values: seq<string>): (r: seq<R>)
    ensures |r| <= |table|
    ensures forall k :: 0 <= k < |r| ==> r[k] in table && key(r[k]) in values
    ensures forall k :: 0 <= k < |table| && key(table[k]) in values ==> table[k] in r
    ensures |r| == 0 <==> forall k :: 0 <= k < |table| ==> key(table[k]) !in values
  {
    Where(table, (row: R) => key(row) in values)
  }

  /** An empty list of values selects nothing. */
  lemma InNothing<R>(table: seq<R>, key: R -> string)
    ensures In(table, key, []) == []
  {
  }
}
