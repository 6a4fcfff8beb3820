/**
 * The overload regression scoring service: a request carries a window of 50
 * time steps of the 56 model features as JSON text; the service standardises
 * and weights the window, hands it to the trained predictor and maps the
 * prediction back to the unit of feature 0 (momentary power consumption).
 * The predictor is a parameter: its wrapper is not part of this model.
 */
module MpcScore {
  import opened Wrappers
  import opened Tensor
  import opened MpcConstants

  /** Number of time steps of the input window. */
  const Steps: nat := 50

  /** Preprocessor: the scaler and the weight vector, set once at construction. */
  datatype Preprocessor = Preprocessor(scaler: Scaler, weights: seq<real>)

  /** A fitted scaler and one weight per feature. */
  predicate Ready(p: Preprocessor)
  {
    Fitted(p.scaler) && |p.weights| == |p.scaler.mean| > 0
  }

  /** Preprocessor(): the scaler's statistics are ds_mean and ds_scale, the weights the table's. */
  function NewPreprocessor(): (p: Preprocessor)
    ensures Ready(p) && |p.scaler.mean| == Features
    ensures p.scaler == Scaler(DsMean(), DsScale()) && p.weights == Weights()
  {
    DsScalePositive();
    TableLengths();
    Preprocessor(Scaler(DsMean(), DsScale()), Weights())
  }

  /**
   * Preprocessor.preprocessing: an array [B, H, F] is standardised column by
   * column and the result multiplied by the weight vector, broadcast along
   * the feature axis. The scaler accepts only its own width, and only an
   * array holding at least one sample (B * H > 0).
   */
  function Preprocessing(p: Preprocessor, x: NdArray): (r: Result<NdArray, ShapeError>)
    requires Ready(p) && Valid(x)
    ensures r.Ok? <==> |x.shape| == 3 && x.shape[0] * x.shape[1] > 0 && x.shape[2] == |p.scaler.mean|
    ensures |x.shape| != 3 ==> r == Err(NotThreeDimensional(|x.shape|))
    ensures |x.shape| == 3 && x.shape[2] == 0 ==> r == Err(ReshapeFailed)
    ensures |x.shape| == 3 && x.shape[2] > 0 && x.shape[0] * x.shape[1] == 0 ==> r == Err(NoSamples)
    ensures |x.shape| == 3 && x.shape[0] * x.shape[1] > 0 && 0 < x.shape[2] != |p.scaler.mean| ==>
      r == Err(FeatureCountMismatch(|p.scaler.mean|, x.shape[2]))
    ensures r.Ok? ==> r.value.shape == x.shape && Valid(r.value)
    ensures r.Ok? ==> forall i :: 0 <= i < |x.data| ==>
      var j := i % |p.weights|;
      r.value.data[i] == Standardized(x.data[i], p.scaler.mean[j], p.scaler.scale[j]) * p.weights[j]
  {
    match StandardizeHistory(p.scaler, x)
    case Err(e) => Err(e)
    case Ok(y) => Ok(MultiplyLastAxis(y, p.weights))
  }

  /** Output element (b, h, f) is the standardised reading x[b, h, f] times weights[f]. */
  lemma PreprocessingAt(p: Preprocessor, x: NdArray, b: nat, h: nat, f: nat)
    requires Ready(p) && Valid(x) && |x.shape| == 3 && x.shape[2] == |p.scaler.mean|
    requires b < x.shape[0] && h < x.shape[1] && f < x.shape[2]
    ensures Preprocessing(p, x).Ok?
    ensures At3(Preprocessing(p, x).value, b, h, f) ==
      Standardized(At3(x, b, h, f), p.scaler.mean[f], p.scaler.scale[f]) * p.weights[f]
  {
    Size3(x.shape[0], x.shape[1], x.shape[2]);
    Offset3Bounds(x.shape[0], x.shape[1], x.shape[2], b, h, f);
  }

  /** A reading equal to its feature's mean is mapped to 0. */
  lemma PreprocessingOfMean(p: Preprocessor, x: NdArray, b: nat, h: nat, f: nat)
    requires Ready(p) && Valid(x) && |x.shape| == 3 && x.shape[2] == |p.scaler.mean|
    requires b < x.shape[0] && h < x.shape[1] && f < x.shape[2]
    requires At3(x, b, h, f) == p.scaler.mean[f]
    ensures At3(Preprocessing(p, x).value, b, h, f) == 0.0
  {
    PreprocessingAt(p, x, b, h, f);
  }

  /** A reading one scale above its feature's mean is mapped to that feature's weight. */
  lemma PreprocessingOfMeanPlusScale(p: Preprocessor, x: NdArray, b: nat, h: nat, f: nat)
    requires Ready(p) && Valid(x) && |x.shape| == 3 && x.shape[2] == |p.scaler.mean|
    requires b < x.shape[0] && h < x.shape[1] && f < x.shape[2]
    requires At3(x, b, h, f) == p.scaler.mean[f] + p.scaler.scale[f]
    ensures At3(Preprocessing(p, x).value, b, h, f) == p.weights[f]
  {
    PreprocessingAt(p, x, b, h, f);
    assert Standardized(p.scaler.mean[f] + p.scaler.scale[f], p.scaler.mean[f], p.scaler.scale[f]) == 1.0;
  }

  /** The request: Inputs["record"], absent when the key is missing; each record maps keys to JSON texts. */
  datatype Inputs = Inputs(record: Option<seq<map<string, string>>>)

  /** json.loads followed by np.array: a matrix of numbers, or None when either raises. */
  type Decoder = string -> Option<seq<seq<real>>>

  /** A matrix that fits the [50, 56] slot of the input buffer. */
  predicate IsWindow(m: seq<seq<real>>)
  {
    |m| == Steps && forall h :: 0 <= h < |m| ==> |m[h]| == Features
  }

  /**
   * The guarded part of run: Inputs["record"][0]["data"], decoded and
   * assigned into input_data[0]. None when any step raises: the key or
   * the first record is missing, decoding fails, or the matrix does not
   * fit the slot.
   */
  function Payload(inputs: Inputs, decode: Decoder): (m: Option<seq<seq<real>>>)
    ensures m.Some? ==> IsWindow(m.value)
    ensures m.None? <==>
      || inputs.record.None?
      || |inputs.record.value| == 0
      || "data" !in inputs.record.value[0]
      || decode(inputs.record.value[0]["data"]).None?
      || !IsWindow(decode(inputs.record.value[0]["data"]).value)
    ensures m.Some? ==> m == decode(inputs.record.value[0]["data"])
  {
    match inputs.record
    case None => None
    case Some(records) =>
      if |records| == 0 || "data" !in records[0] then None
      else
        match decode(records[0]["data"])
        case None => None
        case Some(matrix) => if IsWindow(matrix) then Some(matrix) else None
  }

  /** The rows of a window laid end to end, as the buffer stores them. */
  function Flatten(m: seq<seq<real>>): (d: seq<real>)
    requires IsWindow(m)
    ensures |d| == Steps * Features
    ensures forall h, f :: 0 <= h < Steps && 0 <= f < Features ==> d[h * Features + f] == m[h][f]
  {
    var d := seq(Steps * Features, i requires 0 <= i < Steps * Features => m[i / Features][i % Features]);
    forall h, f | 0 <= h < Steps && 0 <= f < Features
      ensures h * Features + f < Steps * Features && d[h * Features + f] == m[h][f]
    {
      Offset3Bounds(1, Steps, Features, 0, h, f);
      DivModUnique(h * Features + f, Features, h, f);
    }
    d
  }

  /** np.zeros((1, 50, 56)) with slot 0 overwritten by the window. */
  function InputTensor(m: seq<seq<real>>): (t: NdArray)
    requires IsWindow(m)
    ensures Valid(t) && t.shape == [1, Steps, Features]
    ensures forall h, f :: 0 <= h < Steps && 0 <= f < Features ==> At3(t, 0, h, f) == m[h][f]
  {
    var z := Zeros([1, Steps, Features]);
    Size3(1, Steps, Features);
    var t := NdArray(z.shape, Flatten(m));
    forall h, f | 0 <= h < Steps && 0 <= f < Features
      ensures At3(t, 0, h, f) == m[h][f]
    {
      Offset3Bounds(1, Steps, Features, 0, h, f);
    }
    t
  }

  /** The trained model's step: one row of outputs per batch element. */
  type Predictor = NdArray -> seq<seq<real>>

  /** output_data[0][0] raises IndexError when the predictor returns nothing. */
  datatype RunError = EmptyPrediction

  /** The factor and offset run applies to the prediction. */
  const OutputScale: real := 73.6188028
  const OutputMean: real := 331.105838

  /** Maps a standardised value of feature 0 back to its own unit. */
  function Unstandardize(y: real): real
  {
    y * OutputScale + OutputMean
  }

  /**
   * run: when the guarded decoding fails the service answers [0.0] without
   * consulting the predictor; otherwise it predicts on the [1, 50, 56]
   * buffer and returns the first output mapped back to feature 0's unit.
   */
  function Run(inputs: Inputs, decode: Decoder, predict: Predictor): (r: Result<seq<real>, RunError>)
    ensures Payload(inputs, decode).None? ==> r == Ok([0.0])
    ensures Payload(inputs, decode).Some? ==>
      var out := predict(InputTensor(Payload(inputs, decode).value));
      && (r.Ok? <==> |out| > 0 && |out[0]| > 0)
      && (r.Ok? ==> r.value == [Unstandardize(out[0][0])])
    ensures r.Ok? ==> |r.value| == 1
  {
    match Payload(inputs, decode)
    case None => Ok([0.0])
    case Some(window) =>
      var out := predict(InputTensor(window));
      if |out| == 0 || |out[0]| == 0 then Err(EmptyPrediction)
      else Ok([Unstandardize(out[0][0])])
  }

  /** On a degraded request run's answer does not depend on the predictor. */
  lemma DegradedRunIgnoresPredictor(inputs: Inputs, decode: Decoder, p1: Predictor, p2: Predictor)
    requires Payload(inputs, decode).None?
    ensures Run(inputs, decode, p1) == Run(inputs, decode, p2) == Ok([0.0])
  {
  }

  /** The tensor handed to the predictor holds the decoded window in slot 0. */
  lemma PredictorSeesWindow(inputs: Inputs, decode: Decoder, h: nat, f: nat)
    requires Payload(inputs, decode).Some? && h < Steps && f < Features
    ensures
      var t := InputTensor(Payload(inputs, decode).value);
      t.shape == [1, Steps, Features] && At3(t, 0, h, f) == decode(inputs.record.value[0]["data"]).value[h][f]
  {
  }

  /** The factor and offset of run are feature 0's scale and mean. */
  lemma OutputMapIsFeatureZeroStatistics()
    ensures OutputScale == DsScale()[0] && OutputMean == DsMean()[0]
  {
  }

  /** Unstandardize undoes the standardisation of feature 0 (without weight)... */
  lemma UnstandardizeInverts(x: real)
    ensures Unstandardize(Standardized(x, DsMean()[0], DsScale()[0])) == x
  {
    OutputMapIsFeatureZeroStatistics();
    DsScalePositive();
    var s := DsScale()[0];
    assert (x - DsMean()[0]) / s * s == x - DsMean()[0];
  }

  /** ...and standardisation of feature 0 undoes Unstandardize. */
  lemma StandardizeInverts(y: real)
    ensures Standardized(Unstandardize(y), DsMean()[0], DsScale()[0]) == y
  {
    OutputMapIsFeatureZeroStatistics();
    DsScalePositive();
    var s := DsScale()[0];
    assert Unstandardize(y) - DsMean()[0] == y * s;
  }
}
