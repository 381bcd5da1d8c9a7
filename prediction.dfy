/**
 * The `Prediction` class: a table of model predictions held in the field `df`,
 * which the insertion methods reassign, and the two analytics that loop over its
 * models (`dominance_df`, `originality`).
 */
module Predictions {
  import opened Errors
  import opened Frames
  import opened Merging
  import opened Dominance
  import opened Originality

  /** The batch `append_arrays` builds: model `name` over rows `ids`, `None` in
      `yhat` being a NaN. */
  function BatchOf(ids: seq<Id>, yhat: seq<Option<real>>, name: Name): (b: Frame)
    requires |ids| == |yhat| && Distinct(ids)
    ensures WellFormed(b) && b.names == [name]
    ensures b.ids == set id | id in ids
    ensures forall i :: 0 <= i < |ids| ==> Cell(b, name, ids[i]) == yhat[i]
  {
    var c := map i | 0 <= i < |ids| && yhat[i].Some? :: ids[i] := yhat[i].value;
    Frame([name], map[name := c], set id | id in ids)
  }

  /** The one-column frame `f` with its column renamed to `name`. */
  function Relabel(f: Frame, name: Name): (g: Frame)
    requires WellFormed(f) && |f.names| == 1
    ensures WellFormed(g) && g.names == [name] && g.ids == f.ids
    ensures forall id :: Cell(g, name, id) == Cell(f, f.names[0], id)
  {
    Frame([name], map[name := f.cols[f.names[0]]], f.ids)
  }

  /** One dominance score per model (rows) and metric (columns, in `Metrics`
      order); `columns[i][j]` is model `j`'s score on metric `Metrics[i]`. */
  datatype DominanceTable = DominanceTable(models: seq<Name>, columns: seq<seq<real>>)

  class Prediction {
    var df: Table

    ghost predicate Valid()
      reads this
    {
      ValidTable(df)
    }

    /** `Prediction(df=None)`: the table holds `df`; the source's default is the
        empty table `None`. */
    constructor (df: Table)
      requires ValidTable(df)
      ensures Valid() && this.df == df
    {
      this.df := df;
    }

    /** `append_prediction`: the table absorbs the one-model batch `p`, or raises
        and is left as it was. */
    method AppendPrediction(p: Prediction) returns (res: Outcome)
      requires Valid() && p.Valid() && p.df.Some?
      modifies this
      ensures Valid()
      ensures var m := Merge(old(df), old(p.df.value));
              && (res.Pass? <==> m.Ok?)
              && (m.Ok? ==> df == Some(m.value))
              && (m.Err? ==> res == Fail(m.error) && df == old(df))
    {
      var b := p.df.value;
      if |b.names| != 1 {
        return Fail(NotImplementedError);
      }
      var name := b.names[0];
      if df.None? {
        // empty prediction: adopt the batch
        df := p.df;
      } else if !Contains(df, name) {
        // a model not in the table yet: outer join on row id
        df := Some(AddColumn(df.value, name, b.cols[name], b.ids));
      } else {
        // more values for a model already in the table; overlapping ids raise
        // before the table is touched
        var y := df.value.cols[name];
        var s := b.cols[name];
        if y.Keys * s.Keys != {} {
          return Fail(ValueError(OverlappingIds));
        }
        df := Some(ReplaceColumn(df.value, name, s + y));
      }
      return Pass;
    }

    /** `append_arrays`: build the batch of model `name` from `ids` and `yhat`
        (which pandas requires to have the same length) and append it. */
    method AppendArrays(ids: seq<Id>, yhat: seq<Option<real>>, name: Name) returns (res: Outcome)
      requires Valid() && Distinct(ids)
      modifies this
      ensures Valid()
      ensures |ids| != |yhat| ==> res == Fail(ValueError(LengthMismatch)) && df == old(df)
      ensures |ids| == |yhat| ==>
                var m := Merge(old(df), BatchOf(ids, yhat, name));
                && (res.Pass? <==> m.Ok?)
                && (m.Ok? ==> df == Some(m.value))
                && (m.Err? ==> res == Fail(m.error) && df == old(df))
    {
      if |ids| != |yhat| {
        return Fail(ValueError(LengthMismatch));
      }
      var p := new Prediction(Some(BatchOf(ids, yhat, name)));
      res := AppendPrediction(p);
    }

    /** `prediction[name] = p`: `p` must hold one model; its column is renamed to
        `name` in place (so `p` itself changes, and so does this table when `p` is
        this table) and it is then appended. */
    method SetItem(name: Name, p: Prediction) returns (res: Outcome)
      requires Valid() && p.Valid() && p.df.Some?
      modifies this, p
      ensures Valid() && p.Valid()
      ensures |old(p.df.value.names)| != 1 ==>
                res == Fail(ValueError(SingleModelOnly)) && df == old(df) && p.df == old(p.df)
      ensures |old(p.df.value.names)| == 1 ==>
                var batch := Relabel(old(p.df.value), name);
                var before := if p == this then Some(batch) else old(df);
                var m := Merge(before, batch);
                && p.df.Some? && (p != this ==> p.df == Some(batch))
                && (res.Pass? <==> m.Ok?)
                && (m.Ok? ==> df == Some(m.value))
                && (m.Err? ==> res == Fail(m.error) && df == before)
    {
      if |p.df.value.names| != 1 {
        return Fail(ValueError(SingleModelOnly));
      }
      p.df := Some(Relabel(p.df.value, name));
      res := AppendPrediction(p);
    }

    /** `dominance_df`: for each metric and each model, the mean over the eras of
        the fraction of the other models it bests. `metricsPerEra` stands for the
        external `metrics_per_era(data, self)`. Exactly one model raises; no model
        at all gives an empty table. */
    method DominanceDf(metricsPerEra: Table -> EraMetrics) returns (r: Result<DominanceTable>)
      requires WellFormedMetrics(metricsPerEra(df))
      ensures var mpe := metricsPerEra(df);
              && (r.Err? <==> |mpe.models| == 1)
              && (r.Err? ==> r.error == ValueError(TooFewModels))
              && (r.Ok? ==> && r.value.models == mpe.models
                            && |r.value.columns| == |Metrics|
                            && forall i :: 0 <= i < |Metrics| ==> |r.value.columns[i]| == |mpe.models|)
              && (r.Ok? ==> forall i, j :: 0 <= i < |Metrics| && 0 <= j < |mpe.models| ==>
                              r.value.columns[i][j] == Score(Metrics[i], mpe.pivots[i], |mpe.models|, j))
      ensures var mpe := metricsPerEra(df);
              r.Ok? ==> forall i, j :: 0 <= i < |Metrics| && 0 <= j < |mpe.models| ==>
                          0.0 <= r.value.columns[i][j] <= 1.0
    {
      var mpe := metricsPerEra(df);
      var models := mpe.models;
      var dfs: seq<seq<real>> := [];
      for i := 0 to |Metrics|
        invariant i > 0 ==> |models| != 1
        invariant |dfs| == i
        invariant forall i' :: 0 <= i' < i ==> |dfs[i']| == |models|
        invariant forall i', j :: 0 <= i' < i && 0 <= j < |models| ==>
                    dfs[i'][j] == Score(Metrics[i'], mpe.pivots[i'], |models|, j)
      {
        var a := mpe.pivots[i];
        if |models| - 1 == 0 {
          return Err(ValueError(TooFewModels));
        }
        var m: seq<real> := [];
        for j := 0 to |models|
          invariant |m| == j
          invariant forall j' :: 0 <= j' < j ==> m[j'] == Score(Metrics[i], a, |models|, j')
        {
          m := m + [Score(Metrics[i], a, |models|, j)];
        }
        dfs := dfs + [m];
      }
      r := Ok(DominanceTable(models, dfs));
    }

    /** `originality`: for each model not in `submitted`, in `names` order, whether
        it is weakly correlated with (`corr`) and distributed differently from
        (`ks`) every submitted model, and their conjunction. A submitted name that
        is not a column raises `KeyError`. */
    method OriginalityOf(submitted: seq<Name>, pearsonr: Statistic, ks2samp: Statistic)
      returns (r: Result<seq<Report>>)
      requires Valid() && df.Some?
      ensures r.Ok? <==> forall i :: 0 <= i < |submitted| ==> submitted[i] in Names(df)
      ensures r.Err? ==> r.error == KeyError
      ensures r.Ok? ==>
                var names := Unsubmitted(df.value.names, submitted);
                && |r.value| == |names|
                && forall k :: 0 <= k < |names| ==>
                     && names[k] in df.value.cols
                     && r.value[k].name == names[k]
                     && (r.value[k].corr <==> LowCorrelation(df.value, names[k], submitted, pearsonr))
                     && (r.value[k].ks <==> DistinctDistribution(df.value, names[k], submitted, ks2samp))
                     && (r.value[k].original <==> r.value[k].corr && r.value[k].ks)
    {
      var f := df.value;
      if !(forall i :: 0 <= i < |submitted| ==> submitted[i] in f.cols) {
        return Err(KeyError);
      }
      var names := Unsubmitted(f.names, submitted);
      var rows: seq<Report> := [];
      for k := 0 to |names|
        invariant |rows| == k
        invariant forall k' :: 0 <= k' < k ==>
                    && names[k'] in f.cols
                    && rows[k'].name == names[k']
                    && (rows[k'].corr <==> LowCorrelation(f, names[k'], submitted, pearsonr))
                    && (rows[k'].ks <==> DistinctDistribution(f, names[k'], submitted, ks2samp))
                    && (rows[k'].original <==> rows[k'].corr && rows[k'].ks)
      {
        var name := names[k];
        assert name in f.names;
        var corr, ks := CompareWithSubmitted(f, name, submitted, pearsonr, ks2samp);
        rows := rows + [Report(name, corr, ks, corr && ks)];
      }
      r := Ok(rows);
    }
  }

  /** The inner loop of `originality` for model `name`: each flag starts true and
      is cleared by the first submitted model that fails its test; a NaN
      statistic fails no test. */
  method CompareWithSubmitted(f: Frame, name: Name, submitted: seq<Name>, pearsonr: Statistic, ks2samp: Statistic)
    returns (corr: bool, ks: bool)
    requires name in f.cols && forall i :: 0 <= i < |submitted| ==> submitted[i] in f.cols
    ensures corr <==> LowCorrelation(f, name, submitted, pearsonr)
    ensures ks <==> DistinctDistribution(f, name, submitted, ks2samp)
  {
    var yhat := f.cols[name];
    corr, ks := true, true;
    for i := 0 to |submitted|
      invariant corr <==> forall i' :: 0 <= i' < i ==> !TooCorrelated(pearsonr(yhat, f.cols[submitted[i']]))
      invariant ks <==> forall i' :: 0 <= i' < i ==> !TooSimilar(ks2samp(yhat, f.cols[submitted[i']]))
    {
      var other := f.cols[submitted[i]];
      if corr && TooCorrelated(pearsonr(yhat, other)) {
        corr := false;
      }
      if ks && TooSimilar(ks2samp(yhat, other)) {
        ks := false;
      }
    }
  }
}
