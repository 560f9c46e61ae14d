/** The frozen forgetting classifier (models/logWordModel.py): a standard scaler followed by a
    binary logistic regression whose class-1 probability is compared with a tuned threshold.
    The logistic function itself is kept abstract; the scaling, the linear decision value and
    the threshold rule are exact. */
module Classifier {
  import opened Wrappers

  /** The scaler artifact: per-feature `mean` and `scale`. */
  datatype ScalerParams = ScalerParams(mean: seq<real>, scale: seq<real>)

  /** The regression artifact: `intercept`, `coefficients` and the tuned `threshold`. */
  datatype ModelParams = ModelParams(intercept: real, coefficients: seq<real>, threshold: real)

  /** One output row of `predict_class`: the class-1 probability and the class, 0 or 1. */
  datatype Prediction = Prediction(probability: real, cls: int)

  /** Why scikit-learn rejects a batch: no rows at all, or rows whose length does not match
      the parameter vectors. */
  datatype ModelError = EmptyBatch | ShapeMismatch

  function Dot(a: seq<real>, b: seq<real>): real
    requires |a| == |b|
  {
    if a == [] then 0.0 else a[0] * b[0] + Dot(a[1..], b[1..])
  }

  /** With all-zero coefficients the input plays no part in the decision value. */
  lemma {:induction false} DotZero(a: seq<real>, b: seq<real>)
    requires |a| == |b|
    requires forall j :: 0 <= j < |a| ==> a[j] == 0.0
    ensures Dot(a, b) == 0.0
  {
    if a != [] {
      DotZero(a[1..], b[1..]);
    }
  }

  /** The regression's decision value for one (already standardized) row. */
  function Decision(coefficients: seq<real>, intercept: real, x: seq<real>): real
    requires |x| == |coefficients|
  {
    intercept + Dot(coefficients, x)
  }

  /** The scaler's transform of one row: `(x - mean) / scale`, elementwise. Undoing it with
      the same parameters gives the row back. */
  function StandardizeRow(x: seq<real>, mean: seq<real>, scale: seq<real>): (z: seq<real>)
    requires |x| == |mean| == |scale|
    requires forall j :: 0 <= j < |scale| ==> scale[j] != 0.0
    ensures |z| == |x|
    ensures forall j :: 0 <= j < |x| ==> z[j] * scale[j] + mean[j] == x[j]
  {
    seq(|x|, j requires 0 <= j < |x| => (x[j] - mean[j]) / scale[j])
  }

  /** The threshold rule: class 1 exactly when the probability reaches the threshold. */
  function ClassOf(probability: real, threshold: real): (c: int)
    ensures c == 0 || c == 1
    ensures c == 1 <==> probability >= threshold
  {
    if probability >= threshold then 1 else 0
  }

  /** The rule is consistent: a probability at least as high as one classed 1 is classed 1. */
  lemma ThresholdConsistent(p1: real, p2: real, threshold: real)
    requires p1 <= p2 && ClassOf(p1, threshold) == 1
    ensures ClassOf(p2, threshold) == 1
  {
  }

  /** The loaded classifier. Its fields are assigned one by one when the artifacts are loaded. */
  class LogWordModel {
    var mean: seq<real>
    var scale: seq<real>
    var intercept: real
    var coefficients: seq<real>
    var threshold: real
    var classes: seq<int>
    /** The logistic function applied to the decision value by `predict_proba`. */
    const sigmoid: real -> real

    /** A fresh scaler and regression with the default threshold 0.5, then loaded from the artifacts. */
    constructor (sigmoid: real -> real, scalerParams: ScalerParams, modelParams: ModelParams)
      ensures this.sigmoid == sigmoid
      ensures mean == scalerParams.mean && scale == scalerParams.scale
      ensures intercept == modelParams.intercept && coefficients == modelParams.coefficients
      ensures threshold == modelParams.threshold && classes == [0, 1]
    {
      this.sigmoid := sigmoid;
      mean, scale := [], [];
      intercept, coefficients := 0.0, [];
      threshold := 0.5;
      classes := [];
      new;
      LoadModel(scalerParams, modelParams);
    }

    /** Copies the artifacts' parameters into the scaler and the regression and fixes the
        class labels to 0 and 1. */
    method LoadModel(scalerParams: ScalerParams, modelParams: ModelParams)
      modifies this
      ensures mean == scalerParams.mean && scale == scalerParams.scale
      ensures intercept == modelParams.intercept && coefficients == modelParams.coefficients
      ensures threshold == modelParams.threshold && classes == [0, 1]
    {
      mean := scalerParams.mean;
      scale := scalerParams.scale;
      intercept := modelParams.intercept;
      coefficients := modelParams.coefficients;
      threshold := modelParams.threshold;
      classes := [0, 1];
    }

    predicate ScaleNonZero()
      reads this
    {
      forall j :: 0 <= j < |scale| ==> scale[j] != 0.0
    }

    /** `predict_proba(xs)[:, 1]` on rows taken as they are: no scaling happens here. */
    function PredictProbability(xs: seq<seq<real>>): (r: Result<seq<real>, ModelError>)
      reads this
      ensures r.Success? <==> |xs| > 0 && forall i :: 0 <= i < |xs| ==> |xs[i]| == |coefficients|
      ensures r.Failure? && |xs| == 0 ==> r.error == EmptyBatch
      ensures r.Failure? && |xs| > 0 ==> r.error == ShapeMismatch
      ensures r.Success? ==> |r.value| == |xs|
      ensures r.Success? ==> forall i :: 0 <= i < |xs| ==> r.value[i] == sigmoid(Decision(coefficients, intercept, xs[i]))
    {
      if |xs| == 0 then Failure(EmptyBatch)
      else if exists i :: 0 <= i < |xs| && |xs[i]| != |coefficients| then Failure(ShapeMismatch)
      else
        var coefficients, intercept := coefficients, intercept;
        Success(seq(|xs|, i requires 0 <= i < |xs| => sigmoid(Decision(coefficients, intercept, xs[i]))))
    }

    /** `predict_class`: standardize every row once, score it, and apply the threshold rule.
        One output row per input row. */
    function PredictClass(xs: seq<seq<real>>): (r: Result<seq<Prediction>, ModelError>)
      reads this
      requires ScaleNonZero()
      ensures r.Success? <==> |xs| > 0 && |scale| == |mean| == |coefficients| &&
                              forall i :: 0 <= i < |xs| ==> |xs[i]| == |mean|
      ensures r.Failure? && |xs| == 0 ==> r.error == EmptyBatch
      ensures r.Failure? && |xs| > 0 ==> r.error == ShapeMismatch
      ensures r.Success? ==> |r.value| == |xs|
      ensures r.Success? ==> forall i :: 0 <= i < |xs| ==>
                r.value[i].probability == sigmoid(Decision(coefficients, intercept, StandardizeRow(xs[i], mean, scale)))
      ensures r.Success? ==> forall i :: 0 <= i < |xs| ==>
                (r.value[i].cls == 0 || r.value[i].cls == 1) &&
                (r.value[i].cls == 1 <==> r.value[i].probability >= threshold)
    {
      if |xs| == 0 then Failure(EmptyBatch)
      else if |scale| != |mean| || exists i :: 0 <= i < |xs| && |xs[i]| != |mean| then Failure(ShapeMismatch)
      else
        var mean, scale, threshold := mean, scale, threshold;
        var standardized := seq(|xs|, i requires 0 <= i < |xs| => StandardizeRow(xs[i], mean, scale));
        assert forall i :: 0 <= i < |xs| ==> |standardized[i]| == |mean|;
        match PredictProbability(standardized)
        case Failure(e) => Failure(e)
        case Success(probabilities) =>
          assert |standardized[0]| == |mean|;
          Success(seq(|xs|, i requires 0 <= i < |xs| => Prediction(probabilities[i], ClassOf(probabilities[i], threshold))))
    }
  }

  /** Rows are scored independently: a row's prediction in a batch is its prediction alone. */
  lemma RowsIndependent(m: LogWordModel, xs: seq<seq<real>>, i: int)
    requires m.ScaleNonZero()
    requires m.PredictClass(xs).Success? && 0 <= i < |xs|
    ensures m.PredictClass([xs[i]]).Success?
    ensures m.PredictClass([xs[i]]).value[0] == m.PredictClass(xs).value[i]
  {
  }

  /** With all-zero coefficients every row gets the probability of the intercept alone, so the
      whole batch falls in one class: all forgotten when that probability is below the threshold. */
  lemma ZeroCoefficientsOneClass(m: LogWordModel, xs: seq<seq<real>>)
    requires m.ScaleNonZero()
    requires m.PredictClass(xs).Success?
    requires forall j :: 0 <= j < |m.coefficients| ==> m.coefficients[j] == 0.0
    ensures forall i :: 0 <= i < |xs| ==> m.PredictClass(xs).value[i].probability == m.sigmoid(m.intercept)
    ensures m.sigmoid(m.intercept) < m.threshold ==> forall i :: 0 <= i < |xs| ==> m.PredictClass(xs).value[i].cls == 0
  {
    forall i | 0 <= i < |xs|
      ensures m.PredictClass(xs).value[i].probability == m.sigmoid(m.intercept)
    {
      DotZero(m.coefficients, StandardizeRow(xs[i], m.mean, m.scale));
    }
  }
}
