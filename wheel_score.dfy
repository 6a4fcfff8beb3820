/**
 * The wheel-problem classification service: a request carries two
 * navigation corrections, which are placed in a [1, 1, 2] array, scaled by a
 * fitted StandardScaler and classified by a trained model. The scaler and
 * the model are loaded from files; here they are parameters: the scaler's
 * statistics and the model's per-sample prediction.
 */
module WheelScore {
  import opened Wrappers
  import opened Tensor

  /** Preprocessor: a loaded StandardScaler. */
  datatype Preprocessor = Preprocessor(scaler: Scaler)

  /**
   * Preprocessor.preprocessing: [B, H, F] standardised column by column,
   * with no weighting, and viewed as [B, H, F] again; an array without
   * samples (B * H == 0) is refused.
   */
  function Preprocessing(p: Preprocessor, x: NdArray): (r: Result<NdArray, ShapeError>)
    requires Fitted(p.scaler) && Valid(x)
    ensures r.Ok? <==> |x.shape| == 3 && x.shape[0] * x.shape[1] > 0 && 0 < x.shape[2] == |p.scaler.mean|
    ensures |x.shape| == 3 && x.shape[2] > 0 && x.shape[0] * x.shape[1] == 0 ==> r == Err(NoSamples)
    ensures r.Ok? ==> r.value.shape == x.shape && Valid(r.value)
  {
    StandardizeHistory(p.scaler, x)
  }

  /** Element (b, h, f) of the result is x[b, h, f] standardised by column f's statistics, and by nothing else. */
  lemma PreprocessingAt(p: Preprocessor, x: NdArray, b: nat, h: nat, f: nat)
    requires Fitted(p.scaler) && Valid(x) && |x.shape| == 3 && 0 < x.shape[2] == |p.scaler.mean|
    requires b < x.shape[0] && h < x.shape[1] && f < x.shape[2]
    ensures Preprocessing(p, x).Ok?
    ensures At3(Preprocessing(p, x).value, b, h, f) == Standardized(At3(x, b, h, f), p.scaler.mean[f], p.scaler.scale[f])
  {
    StandardizeHistoryAt(p.scaler, x, b, h, f);
  }

  /** The trained model's prediction for one sample (one row of features). */
  type Model = seq<real> -> real

  /**
   * ClassifierStepByStepPredictor: the model, the column names, the
   * preprocessing step and the feature count derived from the columns.
   */
  datatype Classifier = Classifier(model: Model, columns: seq<string>, preprocessing: Preprocessor, featureCount: nat)

  /** The constructor: feature_count is the number of columns. */
  function NewClassifier(model: Model, columns: seq<string>, preprocessing: Preprocessor): (c: Classifier)
    ensures c.columns == columns && c.featureCount == |columns|
    ensures c.model == model && c.preprocessing == preprocessing
  {
    Classifier(model, columns, preprocessing, |columns|)
  }

  /** get_columns. */
  function GetColumns(c: Classifier): seq<string>
  {
    c.columns
  }

  /** get_columns answers exactly the columns the classifier was built with. */
  lemma GetColumnsAfterNew(model: Model, columns: seq<string>, preprocessing: Preprocessor)
    ensures GetColumns(NewClassifier(model, columns, preprocessing)) == columns
    ensures NewClassifier(model, columns, preprocessing).featureCount == |GetColumns(NewClassifier(model, columns, preprocessing))|
  {
  }

  /** The assertions step makes, and a failing preprocessing. */
  datatype StepError =
    | InputNotThreeDimensional(rank: nat)
    | WrongFeatureCount(expected: nat, got: nat)
    | HistoryNotSingle(got: nat)
    | PreprocessingFailed(cause: ShapeError)

  /** Row n of a flat [N, F] array. */
  function Row(data: seq<real>, f: nat, n: nat): (r: seq<real>)
    requires (n + 1) * f <= |data|
    ensures |r| == f
    ensures forall j :: 0 <= j < f ==> n * f + j < |data| && r[j] == data[n * f + j]
  {
    assert (n + 1) * f == n * f + f;
    data[n * f .. (n + 1) * f]
  }

  /** A sample standardised feature by feature: the reference meaning of scaling one row. */
  function ScaleSample(s: Scaler, v: seq<real>): (r: seq<real>)
    requires Fitted(s) && |v| == |s.mean|
    ensures |r| == |v|
    ensures forall j :: 0 <= j < |v| ==> r[j] == Standardized(v[j], s.mean[j], s.scale[j])
  {
    seq(|v|, j requires 0 <= j < |v| => Standardized(v[j], s.mean[j], s.scale[j]))
  }

  /**
   * step: the input must be three-dimensional, carry feature_count
   * features and a history of exactly one step; it is then preprocessed,
   * viewed as [N, F] and given to the model, one prediction per row.
   */
  function Step(c: Classifier, x: NdArray): (r: Result<seq<real>, StepError>)
    requires Fitted(c.preprocessing.scaler) && Valid(x)
    ensures |x.shape| != 3 ==> r == Err(InputNotThreeDimensional(|x.shape|))
    ensures |x.shape| == 3 && x.shape[2] != c.featureCount ==> r == Err(WrongFeatureCount(c.featureCount, x.shape[2]))
    ensures |x.shape| == 3 && x.shape[2] == c.featureCount && x.shape[1] != 1 ==> r == Err(HistoryNotSingle(x.shape[1]))
    ensures |x.shape| == 3 && x.shape[0] == 0 && x.shape[1] == 1 && 0 < x.shape[2] == c.featureCount ==>
      r == Err(PreprocessingFailed(NoSamples))
    ensures r.Ok? <==>
      |x.shape| == 3 && x.shape[0] > 0 && x.shape[1] == 1 && 0 < x.shape[2] == c.featureCount == |c.preprocessing.scaler.mean|
    ensures r.Ok? ==> |r.value| == x.shape[0]
  {
    if |x.shape| != 3 then Err(InputNotThreeDimensional(|x.shape|))
    else
      var n, d, f := x.shape[0], x.shape[1], x.shape[2];
      if f != c.featureCount then Err(WrongFeatureCount(c.featureCount, f))
      else if d != 1 then Err(HistoryNotSingle(d))
      else
        match Preprocessing(c.preprocessing, x)
        case Err(e) => Err(PreprocessingFailed(e))
        case Ok(y) =>
          StepRows(c.preprocessing.scaler, x, y);
          Ok(Predictions(c.model, y.data, n, f))
  }

  /** On success, prediction n is the model applied to row n of the input after scaling. */
  lemma StepPredictsEachRow(c: Classifier, x: NdArray)
    requires Fitted(c.preprocessing.scaler) && Valid(x)
    ensures Step(c, x).Ok? ==> forall n :: 0 <= n < x.shape[0] ==>
      (n + 1) * x.shape[2] <= |x.data| &&
      Step(c, x).value[n] == c.model(ScaleSample(c.preprocessing.scaler, Row(x.data, x.shape[2], n)))
  {
    if Step(c, x).Ok? {
      var y := Preprocessing(c.preprocessing, x).value;
      PredictionsOfScaled(c.model, c.preprocessing.scaler, x, y);
    }
  }

  /** The model's prediction for row k of the preprocessed array is its prediction for row k of the input, scaled. */
  lemma PredictionsOfScaled(model: Model, s: Scaler, x: NdArray, y: NdArray)
    requires Fitted(s) && Valid(x) && |x.shape| == 3 && x.shape[1] == 1 && 0 < x.shape[2] == |s.mean|
    requires StandardizeHistory(s, x) == Ok(y)
    ensures |y.data| == x.shape[0] * x.shape[2]
    ensures forall k :: 0 <= k < x.shape[0] ==>
      (k + 1) * x.shape[2] <= |x.data| &&
      Predictions(model, y.data, x.shape[0], x.shape[2])[k] == model(ScaleSample(s, Row(x.data, x.shape[2], k)))
  {
    StepRows(s, x, y);
  }

  /** model.predict on a flat [N, F] array: one prediction per row, in row order. */
  function Predictions(model: Model, data: seq<real>, n: nat, f: nat): (r: seq<real>)
    requires |data| == n * f
    ensures |r| == n
    ensures forall k :: 0 <= k < n ==> (k + 1) * f <= |data| && r[k] == model(Row(data, f, k))
  {
    seq(n, k requires 0 <= k < n => RowFits(n, f, k); model(Row(data, f, k)))
  }

  /** Row k of an [n, f] array lies inside it. */
  lemma RowFits(n: nat, f: nat, k: nat)
    requires k < n
    ensures (k + 1) * f <= n * f
  {
    MulMonotone(k + 1, n, f);
  }

  /** Row k of the preprocessed [N, 1, F] array is row k of the input, scaled. */
  lemma StepRows(s: Scaler, x: NdArray, y: NdArray)
    requires Fitted(s) && Valid(x) && |x.shape| == 3 && x.shape[1] == 1 && 0 < x.shape[2] == |s.mean|
    requires StandardizeHistory(s, x) == Ok(y)
    ensures |y.data| == |x.data| == x.shape[0] * x.shape[2]
    ensures forall k :: 0 <= k < x.shape[0] ==>
      (k + 1) * x.shape[2] <= |x.data| && Row(y.data, x.shape[2], k) == ScaleSample(s, Row(x.data, x.shape[2], k))
  {
    var n, f := x.shape[0], x.shape[2];
    Size3(n, 1, f);
    assert |x.data| == n * f;
    ScaledRows(s, x.data, y.data, n, f);
  }

  /** Every row of a feature-wise standardised flat [n, f] array is the original row, scaled. */
  lemma ScaledRows(s: Scaler, xs: seq<real>, ys: seq<real>, n: nat, f: nat)
    requires Fitted(s) && 0 < f == |s.mean| && |ys| == |xs| == n * f
    requires forall i :: 0 <= i < |xs| ==> ys[i] == Standardized(xs[i], s.mean[i % f], s.scale[i % f])
    ensures forall k :: 0 <= k < n ==> (k + 1) * f <= |xs| && Row(ys, f, k) == ScaleSample(s, Row(xs, f, k))
  {
    forall k | 0 <= k < n
      ensures (k + 1) * f <= |xs| && Row(ys, f, k) == ScaleSample(s, Row(xs, f, k))
    {
      RowFits(n, f, k);
      ScaledRow(s, xs, ys, f, k);
    }
  }


  /** Row k of a feature-wise standardised flat array is row k of the original, scaled. */
  lemma ScaledRow(s: Scaler, xs: seq<real>, ys: seq<real>, f: nat, k: nat)
    requires Fitted(s) && 0 < f == |s.mean| && |ys| == |xs| && (k + 1) * f <= |xs|
    requires forall i :: 0 <= i < |xs| ==> ys[i] == Standardized(xs[i], s.mean[i % f], s.scale[i % f])
    ensures Row(ys, f, k) == ScaleSample(s, Row(xs, f, k))
  {
    var xr, yr := Row(xs, f, k), Row(ys, f, k);
    forall j | 0 <= j < f
      ensures yr[j] == ScaleSample(s, xr)[j]
    {
      var i := k * f + j;
      DivModUnique(i, f, k, j);
      assert yr[j] == ys[i] && xr[j] == xs[i];
    }
  }



  /** The classifier's input columns. */
  const SelectedColumns: seq<string> := [
    "FH.6000.[NNS] - Natural Navigation Signals.Difference heading average correction",
    "FH.6000.[NNS] - Natural Navigation Signals.Distance average correction"
  ]

  /** The classifier of the service expects two features. */
  lemma ServiceFeatureCount(model: Model, preprocessing: Preprocessor)
    ensures NewClassifier(model, SelectedColumns, preprocessing).featureCount == 2
  {
  }

  /** The request: Inputs["record"], absent when the key is missing; each record maps keys to numbers. */
  datatype Inputs = Inputs(record: Option<seq<map<string, real>>>)

  /** Indexing the request raises: the record list or one of the two keys is missing. */
  datatype RunError = MalformedRequest | StepFailed(cause: StepError)

  /** np.zeros((1, 1, 2)) with slot 0 set to [[heading, distance]]. */
  function InputTensor(heading: real, distance: real): (t: NdArray)
    ensures Valid(t) && t.shape == [1, 1, 2]
    ensures At3(t, 0, 0, 0) == heading && At3(t, 0, 0, 1) == distance
  {
    var z := Zeros([1, 1, 2]);
    Size3(1, 1, 2);
    NdArray(z.shape, [heading, distance])
  }

  /**
   * run: nn_diff_heading_avg_correction becomes feature 0 and
   * nn_distance_avg_correction feature 1 of a [1, 1, 2] array, whose
   * classification is returned as it is.
   */
  function Run(inputs: Inputs, c: Classifier): (r: Result<seq<real>, RunError>)
    requires Fitted(c.preprocessing.scaler)
    ensures r == Err(MalformedRequest) <==>
      || inputs.record.None?
      || |inputs.record.value| == 0
      || "nn_diff_heading_avg_correction" !in inputs.record.value[0]
      || "nn_distance_avg_correction" !in inputs.record.value[0]
    ensures r != Err(MalformedRequest) ==>
      var rec := inputs.record.value[0];
      var x := InputTensor(rec["nn_diff_heading_avg_correction"], rec["nn_distance_avg_correction"]);
      && (r.Ok? <==> Step(c, x).Ok?)
      && (r.Ok? ==> r.value == Step(c, x).value)
      && (r.Err? ==> r == Err(StepFailed(Step(c, x).error)))
  {
    match inputs.record
    case None => Err(MalformedRequest)
    case Some(records) =>
      if |records| == 0 then Err(MalformedRequest)
      else
        var rec := records[0];
        if "nn_diff_heading_avg_correction" !in rec || "nn_distance_avg_correction" !in rec then Err(MalformedRequest)
        else
          var x := InputTensor(rec["nn_diff_heading_avg_correction"], rec["nn_distance_avg_correction"]);
          match Step(c, x)
          case Err(e) => Err(StepFailed(e))
          case Ok(out) => Ok(out)
  }

  /**
   * The service's step on one request's two readings: one prediction, made
   * on the heading correction scaled as feature 0 and the distance
   * correction scaled as feature 1.
   */
  lemma ServiceStep(model: Model, preprocessing: Preprocessor, heading: real, distance: real)
    requires Fitted(preprocessing.scaler) && |preprocessing.scaler.mean| == 2
    ensures
      var s := preprocessing.scaler;
      var r := Step(NewClassifier(model, SelectedColumns, preprocessing), InputTensor(heading, distance));
      && r.Ok? && |r.value| == 1
      && r.value[0] == model([Standardized(heading, s.mean[0], s.scale[0]), Standardized(distance, s.mean[1], s.scale[1])])
  {
    var s := preprocessing.scaler;
    var x := InputTensor(heading, distance);
    var c := NewClassifier(model, SelectedColumns, preprocessing);
    assert x.data == [heading, distance];
    assert Row(x.data, 2, 0) == x.data;
    var scaled := [Standardized(heading, s.mean[0], s.scale[0]), Standardized(distance, s.mean[1], s.scale[1])];
    assert ScaleSample(s, x.data) == scaled;
    assert Step(c, x).Ok?;
    StepPredictsEachRow(c, x);
    assert Step(c, x).value[0] == model(scaled);
  }

  /** The service end to end: a well-formed request yields the prediction ServiceStep describes. */
  lemma ServiceRun(inputs: Inputs, model: Model, preprocessing: Preprocessor)
    requires Fitted(preprocessing.scaler) && |preprocessing.scaler.mean| == 2
    requires inputs.record.Some? && |inputs.record.value| > 0
    requires "nn_diff_heading_avg_correction" in inputs.record.value[0]
    requires "nn_distance_avg_correction" in inputs.record.value[0]
    ensures
      var rec := inputs.record.value[0];
      var s := preprocessing.scaler;
      var r := Run(inputs, NewClassifier(model, SelectedColumns, preprocessing));
      && r.Ok? && |r.value| == 1
      && r.value[0] == model([Standardized(rec["nn_diff_heading_avg_correction"], s.mean[0], s.scale[0]),
                              Standardized(rec["nn_distance_avg_correction"], s.mean[1], s.scale[1])])
  {
    var rec := inputs.record.value[0];
    ServiceStep(model, preprocessing, rec["nn_diff_heading_avg_correction"], rec["nn_distance_avg_correction"]);
  }
}
