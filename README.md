# numerox `Prediction`: a Dafny model

This project models the `Prediction` class of numerox (`numerox/prediction.py`).
The class is a table of model predictions. Its columns are model names and its rows are row ids.
The model covers:

- **the container** (`names`, `size`, `shape`, `len`, `in`, indexing by one name or by a list of names, `iter`): pure functions over the table value, in `Frames` (`frames.dfy`);
- **the merge engine** behind `append_prediction`: the function `Merging.Merge` (`merging.dfy`) and the lemmas relating several merges;
- **the class itself**: `Predictions.Prediction` (`prediction.dfy`). Its field `df` is reassigned by `AppendPrediction`, `AppendArrays` and `SetItem`. `DominanceDf` and `OriginalityOf` hold the loops of `dominance_df` and `originality`;
- **dominance counting**: `Dominance` (`dominance.dfy`): per-era fractions of rivals bested, their mean over eras, bounds, and the "averages one half" property;
- **originality flags**: `Originality` (`originality.dfy`): the filtered model list and the two threshold tests;
- **the sort dispatch of `performance`**: `Performance` (`performance.dfy`).

A pandas DataFrame is a `Frame`. It holds the ordered column names, one sparse column per name and the set of row ids.
A missing (NaN) cell is an absent key in the column's map. An empty `Prediction` (`df is None`) is the `Table` value `None`.
The external numeric producers (`metrics_per_era`, `pearsonr`, `ks_2samp`) are function-typed parameters.
Nothing is assumed about `pearsonr` and `ks_2samp`.
`Predictions.Prediction.DominanceDf` assumes one thing about `metrics_per_era` (`Dominance.WellFormedMetrics`): its result has exactly three era × model matrices (logloss, auc, acc), every era has one real value per model, and there is at least one era as soon as there is a model.
This holds because `pivot(index='era', columns='model', ...)` always yields a rectangular matrix, and its model columns come only from rows that carry an era.

Points where the code's behaviour is easy to misread:

- On an empty table, `shape` is the empty tuple, not `(0, 0)`.
- `dominance_df` raises only when there is exactly one model (`n == 0`). With no models it returns an empty table.
- The exceptions are the code's own classes:
  - `NotImplementedError` from `append_prediction` for a batch with other than one column (none or several);
  - `ValueError` for such a batch given to `__setitem__`, for overlapping ids in `append_prediction`, for ids and values of different lengths in `append_arrays`, for a single model in `dominance_df`, and for an unknown sort key;
  - `KeyError` for an unknown model name.
- In the re-insertion branch of `append_prediction`, the final `pd.merge` passes `on=name` together with `left_index`/`right_index`. The column layout that call produces is not well defined across pandas versions.
  The model follows the intent stated in the code's comment: the model's column becomes the union of its old non-missing values and the batch's non-missing values. Those two sets must not share a row id.
  The rows grow by the batch's non-missing ids, because `dropna` has removed the others.
- The docstring of `__setitem__` says "Add (or replace)", but the code never replaces a column: re-inserting a model on a row where it already has a value raises `ValueError`.
- The defaults are kept in the doc comments: `Prediction(df=None)` starts empty, and `performance` sorts by `logloss` unless told otherwise.

## Model

| member | source | states |
|---|---|---|
| `Frames.Names` | numerox/prediction.py:26-30 | empty for the empty table; otherwise exactly the columns, each once |
| `Frames.Len` | numerox/prediction.py:254-258 | 0 for the empty table; otherwise every single-model view `prediction[name]` has exactly `len` rows |
| `Frames.Size` | numerox/prediction.py:242-246 | number of cells, i.e. rows times columns; 0 for the empty table |
| `Frames.ShapeOf` | numerox/prediction.py:248-252 | the empty shape exactly for the empty table; otherwise (rows, columns) |
| `Frames.EmptyTableIntrospection` | numerox/prediction.py:242-258 | on the empty table, names is [], len and size are 0, shape is (), iter yields nothing |
| `Frames.Contains` | numerox/prediction.py:238-240 | true iff the name is one of the table's names (an empty table is refused, since the source raises there) |
| `Frames.GetModel` | numerox/prediction.py:223-226 | indexing by a string gives a one-column table with that name, the same rows and the same cells; an unknown name raises KeyError |
| `Frames.GetModels` | numerox/prediction.py:223-229 | indexing by a list gives exactly those columns in the given order, same rows and cells; raises KeyError iff some listed name is unknown |
| `Frames.Iter` | numerox/prediction.py:32-35 | one table per name, in names order, each equal to indexing by that name |
| `Merging.Merge` | numerox/prediction.py:43-64 | a batch with other than one column raises NotImplementedError; an empty table adopts the batch; a new name gives the outer join (rows = union, names gain the name last, old cells unchanged, new column = batch's); an existing name raises ValueError iff a row holds a value in both, else its column becomes the union of both and other columns are unchanged; results stay well-formed |
| `Merging.DisjointBatchesUnion` | numerox/prediction.py:50-64 | two batches of a new model on disjoint ids are both accepted and the column ends up as their union |
| `Merging.ReinsertionOrderIrrelevant` | numerox/prediction.py:54-64 | two disjoint re-insertions for a held model give the same table in either order |
| `Merging.EndToEndInsertBoth` | numerox/prediction.py:47-53 | m1 then m2 on the same two rows: 2 rows, names [m1, m2] in insertion order, no missing cell |
| `Merging.EndToEndOverlap` | numerox/prediction.py:54-61 | re-inserting m1 with a value on id1, where it already has one, raises ValueError |
| `Merging.EndToEndNewRow` | numerox/prediction.py:54-64 | re-inserting m1 on the new row id3 succeeds with 3 rows, and m2 is missing on id3 |
| `Predictions.BatchOf` | numerox/prediction.py:37-39 | the batch built from ids and values: one column named `name`, rows = the ids, each row's cell = its value (missing for NaN) |
| `Predictions.Relabel` | numerox/prediction.py:235 | the one-column batch renamed to `name`, with the same rows and cells |
| `Predictions.Prediction.constructor` | numerox/prediction.py:23-24 | the table holds the given frame, or is empty |
| `Predictions.Prediction.AppendPrediction` | numerox/prediction.py:43-64 | the new `df` is the merge of the old table with the batch; when the merge raises, the error is returned and `df` is unchanged |
| `Predictions.Prediction.AppendArrays` | numerox/prediction.py:37-41 | ids and values of different lengths raise ValueError and leave `df` unchanged; otherwise the batch they make is appended as by append_prediction |
| `Predictions.Prediction.SetItem` | numerox/prediction.py:231-236 | a batch without exactly one column raises ValueError, changing nothing; otherwise the argument's column is renamed in place and the renamed batch appended (to the renamed table when the argument is the table itself) |
| `Predictions.Prediction.DominanceDf` | numerox/prediction.py:151-173 | raises ValueError iff there is exactly one model; otherwise one score per model and metric (logloss, auc, acc), each the mean over eras of the fraction of rivals bested, each in [0, 1] |
| `Predictions.Prediction.OriginalityOf` | numerox/prediction.py:196-221 | raises KeyError iff a submitted name is not a column; rows are the unsubmitted names in names order; corr iff no submitted model gives a pearsonr above 0.95; ks iff no submitted model gives a ks_2samp at or below 0.03; a NaN statistic fails neither test; original iff both |
| `Predictions.CompareWithSubmitted` | numerox/prediction.py:208-216 | the inner loop's flags: each stays true iff no submitted model fails its test |
| `Dominance.Bested` | numerox/prediction.py:165-168 | the number of positions in an era's row whose value the model strictly bests, as the boolean sum counts them; at most the number of models |
| `Dominance.BestedExcludesSelf` | numerox/prediction.py:165-168 | the comparison is strict, so a model never bests itself and bests at most the n - 1 others |
| `Dominance.EraFraction` | numerox/prediction.py:160-168 | a model's per-era count divided by (models - 1) lies in [0, 1] |
| `Dominance.FractionSum` | numerox/prediction.py:169 | the per-era fractions summed over k eras lie in [0, k] |
| `Dominance.Score` | numerox/prediction.py:164-169 | the mean over eras of the per-era fraction lies in [0, 1] |
| `Dominance.OneWinPerPair` | numerox/prediction.py:165-168 | against an untied value, every model either bests it or is bested by it |
| `Dominance.WinsWithoutTies` | numerox/prediction.py:164-168 | with no ties in an era, the total count of wins is m (m - 1) / 2 |
| `Dominance.EraFractionsAverageHalf` | numerox/prediction.py:164-168 | with no ties in an era, the models' per-era fractions average exactly 1/2 in real arithmetic |
| `Dominance.DominanceAveragesHalf` | numerox/prediction.py:164-169 | with no ties in any era, the models' dominance scores average exactly 1/2 in real arithmetic |
| `Originality.Unsubmitted` | numerox/prediction.py:203-204 | exactly the names not submitted, each once |
| `Originality.UnsubmittedAppend` | numerox/prediction.py:204 | filtering commutes with concatenation, so the kept names stay in names order |
| `Originality.NothingSubmitted` | numerox/prediction.py:204 | with nothing submitted every model is reported on, in order |
| `Performance.ParseSortKey` | numerox/prediction.py:111-125 | only logloss, auc, acc, ystd, sharpe and consis are accepted; anything else raises ValueError |
| `Performance.Insert` | numerox/prediction.py:111-123 | inserting into a sorted table keeps it sorted and adds exactly that row |
| `Performance.Sort` | numerox/prediction.py:111-123 | the result is sorted by the key and is a permutation of the input |
| `Performance.SortPerformance` | numerox/prediction.py:109-125 | unknown keys raise ValueError; otherwise a permutation sorted by logloss ascending, by auc, acc, ystd or sharpe descending, or by consis descending with ties by ascending logloss |

## Left out

- `correlation`, `summary`, `summary_df`, `performance_per_era` and `performance_df`: floating-point mean, std and standardisation, plus console output. Only the sort step of `performance` is modelled; its rounding and printing are not, nor are the sorting, rounding and printing in `dominance`.
- `metrics_per_era`, `metrics_per_model`, `pearsonr` and `ks_2samp` come from `numerox.metrics`, which is not part of this model. They appear only as parameters: an era × model matrix per metric, or a statistic of two columns whose NaN result is `None`.
- `load_report`, `load_prediction`, `save` and `to_csv`: file-system and HDF/CSV I/O.
- `Prediction_OLD` and `concat_prediction`: the superseded single-column container with its own overlap error (`IndexError`).
- Row order: rows are a set. Positional alignment is not modelled, and neither is pandas's ordering of merged rows.
- `Dominance.Score`, `Dominance.EraFractionsAverageHalf`, `Dominance.DominanceAveragesHalf` and `Predictions.Prediction.DominanceDf`: here the division by (models - 1) and the mean over eras are exact real arithmetic. The source computes them in float64, so its scores equal `Score` only up to rounding. Without ties they average 1/2 only up to rounding: four untied models give 1/2 - 2^-56. The [0, 1] bounds also hold for the source's correctly rounded division and mean.
- NaN metric values in the dominance matrices: values are reals, so a model with no value in an era is not representable.
- Frames are values. After the empty-table branch, the source shares the batch's DataFrame object with the table, so renaming the batch's column later would rename the table's too. The model does not capture this.
- `Predictions.Prediction.AppendPrediction` requires the batch to hold data. With an empty batch the source fails with `AttributeError` when it reads the batch's shape.
- `Predictions.Prediction.SetItem` requires the argument to hold data, for the same `AttributeError` reason.
- `Predictions.Prediction.AppendArrays` requires the ids to be distinct. A pandas index with repeated labels has no counterpart in a map keyed by row id.
- `Frames.GetModels` requires the listed names to be distinct. pandas would return repeated columns, which a map keyed by name cannot hold.
- `Frames.Contains`, `Frames.GetModel`, `Frames.GetModels` and `Predictions.Prediction.OriginalityOf` require a non-empty table. On `df is None` the source fails with `TypeError` instead of a handled error.
- `Predictions.Prediction.OriginalityOf`: the statistics receive two columns keyed by row id, not two positional arrays with NaN, so the model says nothing about how NaN is handled inside them.
- `Performance.SortPerformance` promises a sorted permutation and nothing more, because pandas's default sort is not stable. Where NaN values land in the order is not modelled.
