/**
 * The counting behind `Prediction.dominance_df`: per metric, an era × model
 * matrix of metric values (the pivot of `metrics_per_era`); in each era a model
 * scores the fraction of the other models it bests, and its dominance is the mean
 * of that fraction over the eras. A lower logloss bests; a higher auc or acc
 * bests. Both comparisons are strict.
 */
module Dominance {
  import opened Frames

  datatype Metric = Logloss | Auc | Acc

  /** The metrics `dominance_df` asks for, in its column order. */
  const Metrics: seq<Metric> := [Logloss, Auc, Acc]

  /** Rows are eras, columns are models. */
  type Matrix = seq<seq<real>>

  /** What `metrics_per_era` yields once pivoted: the model names (the pivot's
      columns) and one era × model matrix per entry of `Metrics`. */
  datatype EraMetrics = EraMetrics(models: seq<Name>, pivots: seq<Matrix>)

  /** A pivot over `m` models: every era has one value per model, and there is
      at least one era as soon as there is a model. */
  predicate IsPivot(a: Matrix, m: nat)
  {
    (m > 0 ==> |a| > 0) && forall e :: 0 <= e < |a| ==> |a[e]| == m
  }

  predicate WellFormedMetrics(mpe: EraMetrics)
  {
    |mpe.pivots| == |Metrics| && forall i :: 0 <= i < |mpe.pivots| ==> IsPivot(mpe.pivots[i], |mpe.models|)
  }

  /** Does value `x` best value `y` on `metric`? */
  predicate Bests(metric: Metric, x: real, y: real)
  {
    if metric == Logloss then x < y else x > y
  }

  /** The positions of `row` whose entry value `x` bests. */
  ghost function BestedIndices(metric: Metric, x: real, row: seq<real>): set<nat>
  {
    set k: nat | k < |row| && Bests(metric, x, row[k])
  }

  /** How many entries of `row` value `x` bests: the number of positions it bests. */
  function Bested(metric: Metric, x: real, row: seq<real>): (c: nat)
    ensures c <= |row|
    ensures c == |BestedIndices(metric, x, row)|
  {
    if row == [] then
      assert BestedIndices(metric, x, row) == {};
      0
    else
      var last := |row| - 1;
      var front := row[..last];
      var rest := Bested(metric, x, front);
      assert BestedIndices(metric, x, row)
        == BestedIndices(metric, x, front) + if Bests(metric, x, row[last]) then {last} else {};
      rest + if Bests(metric, x, row[last]) then 1 else 0
  }

  /** The fraction of the other models that model `j` bests in one era. */
  function EraFraction(metric: Metric, row: seq<real>, j: nat): (z: real)
    requires j < |row| && |row| >= 2
    ensures 0.0 <= z <= 1.0
  {
    BestedExcludesSelf(metric, row, j);
    Bested(metric, row[j], row) as real / (|row| - 1) as real
  }

  /** The sum over the first `k` eras of model `j`'s per-era fraction. */
  function FractionSum(metric: Metric, a: Matrix, m: nat, j: nat, k: nat): (s: real)
    requires IsPivot(a, m) && m >= 2 && j < m && k <= |a|
    ensures 0.0 <= s <= k as real
  {
    if k == 0 then 0.0
    else FractionSum(metric, a, m, j, k - 1) + EraFraction(metric, a[k - 1], j)
  }

  /** The dominance of model `j`: the mean over the eras of its per-era fraction. */
  function Score(metric: Metric, a: Matrix, m: nat, j: nat): (d: real)
    requires IsPivot(a, m) && m >= 2 && j < m
    ensures 0.0 <= d <= 1.0
  {
    FractionSum(metric, a, m, j, |a|) / |a| as real
  }

  /** A value never bests itself, so a model bests at most the other models. */
  lemma {:induction false} BestedExcludesSelf(metric: Metric, row: seq<real>, j: nat)
    requires j < |row|
    ensures Bested(metric, row[j], row) <= |row| - 1
  {
    var last := |row| - 1;
    if j < last {
      BestedExcludesSelf(metric, row[..last], j);
    } else {
      assert !Bests(metric, row[j], row[last]);
    }
  }

  /** No two models have the same value. */
  predicate NoTies(row: seq<real>)
  {
    forall i, j :: 0 <= i < j < |row| ==> row[i] != row[j]
  }

  /** The number of (x, y) pairs, x from `xs` and y from `ys`, in which x bests y. */
  function Wins(metric: Metric, xs: seq<real>, ys: seq<real>): nat
  {
    if xs == [] then 0
    else Wins(metric, xs[..|xs| - 1], ys) + Bested(metric, xs[|xs| - 1], ys)
  }

  lemma BestedAppend(metric: Metric, x: real, ys: seq<real>, z: real)
    ensures Bested(metric, x, ys + [z]) == Bested(metric, x, ys) + if Bests(metric, x, z) then 1 else 0
  {
    assert (ys + [z])[..|ys|] == ys;
  }

  /** How many entries of `xs` best `z`. */
  function BestedBy(metric: Metric, xs: seq<real>, z: real): nat
  {
    if xs == [] then 0
    else BestedBy(metric, xs[..|xs| - 1], z) + if Bests(metric, xs[|xs| - 1], z) then 1 else 0
  }

  lemma {:induction false} WinsAppendRight(metric: Metric, xs: seq<real>, ys: seq<real>, z: real)
    ensures Wins(metric, xs, ys + [z]) == Wins(metric, xs, ys) + BestedBy(metric, xs, z)
  {
    if xs != [] {
      WinsAppendRight(metric, xs[..|xs| - 1], ys, z);
      BestedAppend(metric, xs[|xs| - 1], ys, z);
    }
  }

  /** Against a value that none of `xs` ties, every entry of `xs` either bests it
      or is bested by it. */
  lemma {:induction false} OneWinPerPair(metric: Metric, xs: seq<real>, z: real)
    requires forall i :: 0 <= i < |xs| ==> xs[i] != z
    ensures BestedBy(metric, xs, z) + Bested(metric, z, xs) == |xs|
  {
    if xs != [] {
      OneWinPerPair(metric, xs[..|xs| - 1], z);
    }
  }

  /** Without ties, the models of one era win exactly one comparison per pair:
      twice the number of wins is m (m - 1). */
  lemma {:induction false} WinsWithoutTies(metric: Metric, row: seq<real>)
    requires NoTies(row)
    ensures 2 * Wins(metric, row, row) == |row| * (|row| - 1)
  {
    if row != [] {
      var k := |row| - 1;
      var front, z := row[..k], row[k];
      assert row == front + [z];
      assert NoTies(front);
      WinsWithoutTies(metric, front);
      WinsAppendRight(metric, front, front, z);
      BestedAppend(metric, z, front, z);
      OneWinPerPair(metric, front, z);
      var w := Wins(metric, front, front);
      assert Wins(metric, row, row) == Wins(metric, front, row) + Bested(metric, z, row);
      assert Wins(metric, row, row) == w + k;
      PairCountStep(k, w);
    }
  }

  lemma PairCountStep(k: nat, w: nat)
    requires 2 * w == k * (k - 1)
    ensures 2 * (w + k) == (k + 1) * k
  {
  }

  lemma DivAdd(a: real, b: real, d: real)
    requires d != 0.0
    ensures a / d + b / d == (a + b) / d
  {
  }

  /** The sum over the models of one era of their fractions, for the first `k` models. */
  function EraFractionSum(metric: Metric, row: seq<real>, k: nat): real
    requires k <= |row| && |row| >= 2
  {
    if k == 0 then 0.0 else EraFractionSum(metric, row, k - 1) + EraFraction(metric, row, k - 1)
  }

  lemma {:induction false} EraFractionSumIsWins(metric: Metric, row: seq<real>, k: nat)
    requires k <= |row| && |row| >= 2
    ensures EraFractionSum(metric, row, k) == Wins(metric, row[..k], row) as real / (|row| - 1) as real
  {
    if k > 0 {
      EraFractionSumIsWins(metric, row, k - 1);
      assert row[..k][..k - 1] == row[..k - 1];
      assert Wins(metric, row[..k], row) == Wins(metric, row[..k - 1], row) + Bested(metric, row[k - 1], row);
      DivAdd(Wins(metric, row[..k - 1], row) as real, Bested(metric, row[k - 1], row) as real, (|row| - 1) as real);
    }
  }

  /** In an era without ties, the per-model fractions average exactly one half:
      each pair of models contributes one win and one loss. */
  lemma EraFractionsAverageHalf(metric: Metric, row: seq<real>)
    requires |row| >= 2 && NoTies(row)
    ensures EraFractionSum(metric, row, |row|) / |row| as real == 0.5
  {
    var m := |row|;
    EraFractionSumIsWins(metric, row, m);
    assert row[..m] == row;
    WinsWithoutTies(metric, row);
    HalfOfPairs(Wins(metric, row, row), m);
  }

  lemma HalfOfPairs(w: nat, m: nat)
    requires m >= 2 && 2 * w == m * (m - 1)
    ensures (w as real / (m - 1) as real) / m as real == 0.5
  {
    assert 2.0 * w as real == m as real * (m - 1) as real;
    assert w as real / (m - 1) as real == m as real / 2.0;
  }

  /** The sum of the dominance scores of the first `k` models. */
  function ScoreSum(metric: Metric, a: Matrix, m: nat, k: nat): real
    requires IsPivot(a, m) && m >= 2 && k <= m
  {
    if k == 0 then 0.0 else ScoreSum(metric, a, m, k - 1) + Score(metric, a, m, k - 1)
  }

  /** The sum, over the first `k` models, of their fractions summed over the first `e` eras. */
  function GridSum(metric: Metric, a: Matrix, m: nat, k: nat, e: nat): real
    requires IsPivot(a, m) && m >= 2 && k <= m && e <= |a|
  {
    if k == 0 then 0.0 else GridSum(metric, a, m, k - 1, e) + FractionSum(metric, a, m, k - 1, e)
  }

  /** Summing by models then eras equals summing by eras then models. */
  lemma {:induction false} GridSumByEra(metric: Metric, a: Matrix, m: nat, k: nat, e: nat)
    requires IsPivot(a, m) && m >= 2 && k <= m && 1 <= e <= |a|
    ensures GridSum(metric, a, m, k, e) == GridSum(metric, a, m, k, e - 1) + EraFractionSum(metric, a[e - 1], k)
  {
    if k > 0 {
      GridSumByEra(metric, a, m, k - 1, e);
    }
  }

  lemma {:induction false} GridSumWithoutTies(metric: Metric, a: Matrix, m: nat, e: nat)
    requires IsPivot(a, m) && m >= 2 && e <= |a|
    requires forall x :: 0 <= x < |a| ==> NoTies(a[x])
    ensures GridSum(metric, a, m, m, e) == e as real * m as real / 2.0
  {
    if e == 0 {
      GridSumAtNoEra(metric, a, m, m);
    } else {
      GridSumWithoutTies(metric, a, m, e - 1);
      GridSumByEra(metric, a, m, m, e);
      EraFractionsAverageHalf(metric, a[e - 1]);
    }
  }

  lemma {:induction false} GridSumAtNoEra(metric: Metric, a: Matrix, m: nat, k: nat)
    requires IsPivot(a, m) && m >= 2 && k <= m
    ensures GridSum(metric, a, m, k, 0) == 0.0
  {
    if k > 0 {
      GridSumAtNoEra(metric, a, m, k - 1);
    }
  }

  lemma {:induction false} ScoreSumIsGridSum(metric: Metric, a: Matrix, m: nat, k: nat)
    requires IsPivot(a, m) && m >= 2 && k <= m
    ensures ScoreSum(metric, a, m, k) == GridSum(metric, a, m, k, |a|) / |a| as real
  {
    if k > 0 {
      ScoreSumIsGridSum(metric, a, m, k - 1);
      DivAdd(GridSum(metric, a, m, k - 1, |a|), FractionSum(metric, a, m, k - 1, |a|), |a| as real);
    }
  }

  /** When no era has ties, the dominance scores of the models average exactly
      one half: whatever one model gains, another loses. */
  lemma DominanceAveragesHalf(metric: Metric, a: Matrix, m: nat)
    requires IsPivot(a, m) && m >= 2
    requires forall x :: 0 <= x < |a| ==> NoTies(a[x])
    ensures ScoreSum(metric, a, m, m) / m as real == 0.5
  {
    var g := GridSum(metric, a, m, m, |a|);
    ScoreSumIsGridSum(metric, a, m, m);
    GridSumWithoutTies(metric, a, m, |a|);
    HalfOfGrid(g, |a|, m);
  }

  lemma HalfOfGrid(g: real, e: nat, m: nat)
    requires e >= 1 && m >= 2 && g == e as real * m as real / 2.0
    ensures (g / e as real) / m as real == 0.5
  {
    assert g / e as real == m as real / 2.0;
  }
}
