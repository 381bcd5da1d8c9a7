/**
 * The definitions behind `Prediction.originality`: which models are reported on
 * (those not yet submitted, in `names` order), the two thresholds, and the three
 * flags of a report row. The statistics themselves (`pearsonr`, `ks_2samp`) are
 * black boxes over two columns of the table.
 */
module Originality {
  import opened Errors
  import opened Frames

  /** A model is too correlated with a submitted one above this Pearson correlation. */
  const CorrLimit: real := 0.95

  /** A model is too similar in distribution to a submitted one at or below this
      value of the two-sample Kolmogorov-Smirnov statistic. */
  const KsLimit: real := 0.03

  /** A statistic of two columns of the table, aligned on row id; `None` is a NaN
      result. */
  type Statistic = (Column, Column) -> Option<real>

  /** The correlation test fails only on a value above `CorrLimit`; a NaN
      correlation fails neither test, so it never clears the flag. */
  predicate TooCorrelated(p: Option<real>)
  {
    p.Some? && p.value > CorrLimit
  }

  /** The distribution test fails only on a value at or below `KsLimit`; a NaN
      statistic never clears the flag. */
  predicate TooSimilar(k: Option<real>)
  {
    k.Some? && k.value <= KsLimit
  }

  datatype Report = Report(name: Name, corr: bool, ks: bool, original: bool)

  /** The names not in `submitted`, in the order of `names`. */
  function Unsubmitted(names: seq<Name>, submitted: seq<Name>): (r: seq<Name>)
    ensures |r| <= |names|
    ensures forall n :: n in r <==> n in names && n !in submitted
    ensures Distinct(names) ==> Distinct(r)
  {
    if names == [] then []
    else
      var rest := Unsubmitted(names[1..], submitted);
      assert forall n :: n in names[1..] ==> n in names;
      if names[0] in submitted then rest else [names[0]] + rest
  }

  /** Filtering commutes with concatenation, so the report keeps the order of `names`. */
  lemma {:induction false} UnsubmittedAppend(a: seq<Name>, b: seq<Name>, submitted: seq<Name>)
    ensures Unsubmitted(a + b, submitted) == Unsubmitted(a, submitted) + Unsubmitted(b, submitted)
  {
    if a != [] {
      assert (a + b)[1..] == a[1..] + b;
      UnsubmittedAppend(a[1..], b, submitted);
    } else {
      assert a + b == b;
    }
  }

  /** Nothing submitted: every model is reported on, in order. */
  lemma {:induction false} NothingSubmitted(names: seq<Name>)
    ensures Unsubmitted(names, []) == names
  {
    if names != [] {
      NothingSubmitted(names[1..]);
    }
  }

  /** No submitted model is more than `CorrLimit` correlated with model `name`. */
  ghost predicate LowCorrelation(f: Frame, name: Name, submitted: seq<Name>, pearsonr: Statistic)
    requires name in f.cols && forall i :: 0 <= i < |submitted| ==> submitted[i] in f.cols
  {
    forall i :: 0 <= i < |submitted| ==> !TooCorrelated(pearsonr(f.cols[name], f.cols[submitted[i]]))
  }

  /** No submitted model is as close in distribution as `KsLimit` to model `name`. */
  ghost predicate DistinctDistribution(f: Frame, name: Name, submitted: seq<Name>, ks2samp: Statistic)
    requires name in f.cols && forall i :: 0 <= i < |submitted| ==> submitted[i] in f.cols
  {
    forall i :: 0 <= i < |submitted| ==> !TooSimilar(ks2samp(f.cols[name], f.cols[submitted[i]]))
  }
}
