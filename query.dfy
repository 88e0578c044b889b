/**
  The two store primitives the handlers rely on: finding the first row that
  matches a filter (`query(...).filter(...).first()`), and choosing the primary
  key of a new row.
 */
module Query {
  import opened Models

  /** Position of the first row, in store order, that satisfies `cond`. */
  function First<T>(rows: seq<T>, cond: T -> bool): (r: Option<nat>)
    ensures r.Some? ==> r.value < |rows| && cond(rows[r.value])
    ensures r.Some? ==> forall j :: 0 <= j < r.value ==> !cond(rows[j])
    ensures r.None? <==> forall j :: 0 <= j < |rows| ==> !cond(rows[j])
    decreases |rows|
  {
    if |rows| == 0 then None
    else if cond(rows[0]) then Some(0)
    else
      match First(rows[1..], cond)
      case None => None
      case Some(k) => Some(k + 1)
  }

  /** The largest key among `rows`, 0 for no rows. */
  function MaxKey<T>(rows: seq<T>, key: T -> nat): (m: nat)
    ensures forall i :: 0 <= i < |rows| ==> key(rows[i]) <= m
    ensures |rows| == 0 ==> m == 0
    ensures |rows| > 0 ==> exists i :: 0 <= i < |rows| && key(rows[i]) == m
    decreases |rows|
  {
    if |rows| == 0 then 0
    else
      var rest := MaxKey(rows[1..], key);
      if key(rows[0]) < rest then rest else key(rows[0])
  }

  /**
    The key a new row receives: one more than the largest key in the table,
    1 in an empty table (the numbering of an integer primary key in SQLite).
   */
  function NextId<T>(rows: seq<T>, key: T -> nat): (id: nat)
    ensures id >= 1
    ensures |rows| == 0 ==> id == 1
    ensures forall i :: 0 <= i < |rows| ==> key(rows[i]) < id
    ensures |rows| > 0 ==> exists i :: 0 <= i < |rows| && key(rows[i]) == id - 1
  {
    MaxKey(rows, key) + 1
  }

  /** No two rows share a key. */
  ghost predicate DistinctKeys<T>(rows: seq<T>, key: T -> nat) {
    forall i, j :: 0 <= i < j < |rows| ==> key(rows[i]) != key(rows[j])
  }
}
