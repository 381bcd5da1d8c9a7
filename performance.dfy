/**
 * The sort dispatch of `Prediction.performance`: the per-model metrics table
 * (from the external `metrics_per_model`) is ordered by the column `sort_by`
 * names, in that column's direction; an unknown `sort_by` raises `ValueError`.
 */
module Performance {
  import opened Errors
  import opened Frames

  /** One row of the per-model metrics table. */
  datatype Row = Row(model: Name, logloss: real, auc: real, acc: real, ystd: real, sharpe: real, consis: real)

  datatype SortKey = ByLogloss | ByAuc | ByAcc | ByYstd | BySharpe | ByConsis

  /** The `sort_by` values `performance` recognises. */
  function ParseSortKey(sortBy: string): (r: Result<SortKey>)
    ensures r.Err? <==> sortBy !in ["logloss", "auc", "acc", "ystd", "sharpe", "consis"]
    ensures r.Err? ==> r.error == ValueError(UnknownSortKey)
    ensures r.Ok? ==> (r.value == ByConsis <==> sortBy == "consis")
  {
    if sortBy == "logloss" then Ok(ByLogloss)
    else if sortBy == "auc" then Ok(ByAuc)
    else if sortBy == "acc" then Ok(ByAcc)
    else if sortBy == "ystd" then Ok(ByYstd)
    else if sortBy == "sharpe" then Ok(BySharpe)
    else if sortBy == "consis" then Ok(ByConsis)
    else Err(ValueError(UnknownSortKey))
  }

  /** May row `a` come before row `b` under `key`? Logloss ascends; auc, acc,
      ystd and sharpe descend; consis descends with ties broken by ascending
      logloss. */
  predicate InOrder(key: SortKey, a: Row, b: Row)
  {
    match key
    case ByLogloss => a.logloss <= b.logloss
    case ByAuc => a.auc >= b.auc
    case ByAcc => a.acc >= b.acc
    case ByYstd => a.ystd >= b.ystd
    case BySharpe => a.sharpe >= b.sharpe
    case ByConsis => a.consis > b.consis || (a.consis == b.consis && a.logloss <= b.logloss)
  }

  predicate SortedBy(key: SortKey, rows: seq<Row>)
  {
    forall i, j :: 0 <= i < j < |rows| ==> InOrder(key, rows[i], rows[j])
  }

  /** Every key orders any two rows one way or the other. */
  lemma InOrderTotal(key: SortKey, a: Row, b: Row)
    ensures InOrder(key, a, b) || InOrder(key, b, a)
  {
  }

  lemma InOrderTransitive(key: SortKey, a: Row, b: Row, c: Row)
    requires InOrder(key, a, b) && InOrder(key, b, c)
    ensures InOrder(key, a, c)
  {
  }

  /** A row that may precede every row of a sorted table may head it. */
  lemma ConsSorted(key: SortKey, h: Row, s: seq<Row>)
    requires SortedBy(key, s) && forall y :: y in s ==> InOrder(key, h, y)
    ensures SortedBy(key, [h] + s)
  {
    var t := [h] + s;
    forall i, j | 0 <= i < j < |t| ensures InOrder(key, t[i], t[j]) {
      assert t[j] == s[j - 1] && s[j - 1] in s;
      if i > 0 {
        assert t[i] == s[i - 1];
      }
    }
  }

  /** `rows` with `x` inserted before the first row it may precede. */
  function Insert(key: SortKey, x: Row, rows: seq<Row>): (r: seq<Row>)
    requires SortedBy(key, rows)
    ensures SortedBy(key, r)
    ensures multiset(r) == multiset(rows) + multiset{x}
    ensures forall y :: y in r ==> y == x || y in rows
  {
    if rows == [] then [x]
    else if InOrder(key, x, rows[0]) then
      assert forall y :: y in rows ==> InOrder(key, x, y) by {
        forall y | y in rows ensures InOrder(key, x, y) {
          var k :| 0 <= k < |rows| && rows[k] == y;
          if k > 0 {
            InOrderTransitive(key, x, rows[0], y);
          }
        }
      }
      ConsSorted(key, x, rows);
      [x] + rows
    else
      var rest := Insert(key, x, rows[1..]);
      assert rows == [rows[0]] + rows[1..];
      InOrderTotal(key, x, rows[0]);
      assert forall y :: y in rest ==> InOrder(key, rows[0], y) by {
        forall y | y in rest ensures InOrder(key, rows[0], y) {
          if y != x {
            var k :| 0 <= k < |rows[1..]| && rows[1..][k] == y;
            assert rows[k + 1] == y;
          }
        }
      }
      ConsSorted(key, rows[0], rest);
      [rows[0]] + rest
  }

  /** The table sorted by `key` (an insertion sort). */
  function Sort(key: SortKey, rows: seq<Row>): (r: seq<Row>)
    ensures SortedBy(key, r)
    ensures multiset(r) == multiset(rows)
  {
    if rows == [] then []
    else
      assert rows == [rows[0]] + rows[1..];
      Insert(key, rows[0], Sort(key, rows[1..]))
  }

  /** `performance` without the printing: the table reordered by `sort_by`
      (whose default in the source is `"logloss"`). */
  function SortPerformance(rows: seq<Row>, sortBy: string): (r: Result<seq<Row>>)
    ensures r.Err? <==> sortBy !in ["logloss", "auc", "acc", "ystd", "sharpe", "consis"]
    ensures r.Err? ==> r.error == ValueError(UnknownSortKey)
    ensures r.Ok? ==> multiset(r.value) == multiset(rows)
    ensures r.Ok? && sortBy == "logloss" ==>
      forall i, j :: 0 <= i < j < |r.value| ==> r.value[i].logloss <= r.value[j].logloss
    ensures r.Ok? && sortBy == "auc" ==>
      forall i, j :: 0 <= i < j < |r.value| ==> r.value[i].auc >= r.value[j].auc
    ensures r.Ok? && sortBy == "acc" ==>
      forall i, j :: 0 <= i < j < |r.value| ==> r.value[i].acc >= r.value[j].acc
    ensures r.Ok? && sortBy == "ystd" ==>
      forall i, j :: 0 <= i < j < |r.value| ==> r.value[i].ystd >= r.value[j].ystd
    ensures r.Ok? && sortBy == "sharpe" ==>
      forall i, j :: 0 <= i < j < |r.value| ==> r.value[i].sharpe >= r.value[j].sharpe
    ensures r.Ok? && sortBy == "consis" ==>
      forall i, j :: 0 <= i < j < |r.value| ==>
        r.value[i].consis > r.value[j].consis
        || (r.value[i].consis == r.value[j].consis && r.value[i].logloss <= r.value[j].logloss)
  {
    match ParseSortKey(sortBy)
    case Err(e) => Err(e)
    case Ok(key) => Ok(Sort(key, rows))
  }
}
