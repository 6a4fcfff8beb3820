/**
 * The slice of numpy and scikit-learn the two scoring services rely on:
 * dense arrays stored flat in row-major order, reshaping, zero-filled
 * allocation, the StandardScaler transform and broadcasting along the last
 * axis. Numbers are reals, not IEEE doubles.
 */
module Tensor {
  import opened Wrappers

  /** An n-dimensional array: its shape and its elements in row-major (C) order. */
  datatype NdArray = NdArray(shape: seq<nat>, data: seq<real>)

  /** Number of elements an array of the given shape holds. */
  function Size(shape: seq<nat>): nat
    decreases |shape|
  {
    if |shape| == 0 then 1 else shape[0] * Size(shape[1..])
  }

  /** The element count agrees with the shape. */
  predicate Valid(t: NdArray)
  {
    |t.data| == Size(t.shape)
  }

  lemma Size2(n: nat, f: nat)
    ensures Size([n, f]) == n * f
  {
    assert [n, f][1..] == [f];
    assert [f][1..] == [];
    assert Size([f]) == f * Size([]) == f;
  }

  lemma Size3(b: nat, h: nat, f: nat)
    ensures Size([b, h, f]) == b * h * f
  {
    assert [b, h, f][1..] == [h, f];
    Size2(h, f);
  }

  /** np.zeros(shape). */
  function Zeros(shape: seq<nat>): (t: NdArray)
    ensures Valid(t) && t.shape == shape
    ensures forall i :: 0 <= i < |t.data| ==> t.data[i] == 0.0
  {
    NdArray(shape, seq(Size(shape), _ => 0.0))
  }

  /** Flat position of element (b, h, f) in an array of shape [_, hs, fs]. */
  function Offset3(hs: nat, fs: nat, b: nat, h: nat, f: nat): nat
  {
    (b * hs + h) * fs + f
  }

  /** The flat position of an in-range element is in range, and its column is f. */
  lemma Offset3Bounds(bs: nat, hs: nat, fs: nat, b: nat, h: nat, f: nat)
    requires b < bs && h < hs && f < fs
    ensures Offset3(hs, fs, b, h, f) < bs * hs * fs
    ensures Offset3(hs, fs, b, h, f) % fs == f
  {
    var row := b * hs + h;
    MulMonotone(b + 1, bs, hs);
    assert (b + 1) * hs == b * hs + hs;
    MulMonotone(row + 1, bs * hs, fs);
    assert (row + 1) * fs == row * fs + fs;
    DivModUnique(row * fs + f, fs, row, f);
  }

  lemma MulNonnegative(a: int, b: int)
    requires a >= 0 && b >= 0
    ensures a * b >= 0
  {
  }

  lemma MulMonotone(a: int, b: int, c: int)
    requires 0 <= a <= b && c >= 0
    ensures a * c <= b * c
  {
    MulNonnegative(b - a, c);
    assert (b - a) * c == b * c - a * c;
  }

  /** Euclidean division is determined by any quotient and in-range remainder. */
  lemma DivModUnique(x: int, m: int, q: int, r: int)
    requires m > 0 && 0 <= r < m && x == q * m + r
    ensures x / m == q && x % m == r
  {
    var q' := x / m;
    if q' > q {
      MulNonnegative(q' - q - 1, m);
      assert false;
    } else if q' < q {
      MulNonnegative(q - q' - 1, m);
      assert false;
    }
  }

  /** x[b, h, f] for a valid three-dimensional array. */
  function At3(t: NdArray, b: nat, h: nat, f: nat): real
    requires Valid(t) && |t.shape| == 3
    requires b < t.shape[0] && h < t.shape[1] && f < t.shape[2]
  {
    assert t.shape == [t.shape[0], t.shape[1], t.shape[2]];
    Size3(t.shape[0], t.shape[1], t.shape[2]);
    Offset3Bounds(t.shape[0], t.shape[1], t.shape[2], b, h, f);
    t.data[Offset3(t.shape[1], t.shape[2], b, h, f)]
  }

  /** Ways the array operations the services use can raise. */
  datatype ShapeError =
    | NotThreeDimensional(rank: nat)
    | ReshapeFailed
    | NoSamples
    | NoFeatures
    | FeatureCountMismatch(expected: nat, got: nat)

  /**
   * a.reshape(-1, f): a two-dimensional view whose second axis is f.
   * numpy refuses to infer the first axis when f is zero or does not divide
   * the element count.
   */
  function ReshapeRows(t: NdArray, f: nat): (r: Option<NdArray>)
    ensures r.Some? <==> f > 0 && |t.data| % f == 0
    ensures r.Some? ==> Valid(r.value) && r.value.data == t.data
    ensures r.Some? ==> |r.value.shape| == 2 && r.value.shape[1] == f
  {
    if f > 0 && |t.data| % f == 0 then
      Size2(|t.data| / f, f);
      Some(NdArray([|t.data| / f, f], t.data))
    else
      None
  }

  /** Standardisation statistics of a StandardScaler: the mean_ and scale_ vectors. */
  datatype Scaler = Scaler(mean: seq<real>, scale: seq<real>)

  /**
   * A fitted scaler has one mean and one scale per feature, and no zero
   * scale (scikit-learn replaces a zero standard deviation by 1).
   */
  predicate Fitted(s: Scaler)
  {
    |s.mean| == |s.scale| && forall j :: 0 <= j < |s.scale| ==> s.scale[j] != 0.0
  }

  /** A reading standardised by a column's mean and scale. */
  function Standardized(v: real, mean: real, scale: real): real
    requires scale != 0.0
  {
    (v - mean) / scale
  }

  /**
   * StandardScaler.transform on a two-dimensional [n, f] array: every
   * element of column j becomes (x - mean[j]) / scale[j]. Input validation
   * raises for an array without samples, then for one without features;
   * the scaler then refuses any width other than its own.
   */
  function Transform(s: Scaler, x: NdArray): (r: Result<NdArray, ShapeError>)
    requires Fitted(s) && Valid(x) && |x.shape| == 2
    ensures r.Ok? <==> x.shape[0] > 0 && 0 < x.shape[1] == |s.mean|
    ensures x.shape[0] == 0 ==> r == Err(NoSamples)
    ensures x.shape[0] > 0 && x.shape[1] == 0 ==> r == Err(NoFeatures)
    ensures x.shape[0] > 0 && 0 < x.shape[1] != |s.mean| ==> r == Err(FeatureCountMismatch(|s.mean|, x.shape[1]))
    ensures r.Ok? ==> r.value.shape == x.shape && |r.value.data| == |x.data|
    ensures r.Ok? ==> forall i :: 0 <= i < |x.data| ==>
      0 < x.shape[1] && r.value.data[i] == Standardized(x.data[i], s.mean[i % x.shape[1]], s.scale[i % x.shape[1]])
  {
    var f := x.shape[1];
    assert x.shape == [x.shape[0], f];
    Size2(x.shape[0], f);
    if x.shape[0] == 0 then
      Err(NoSamples)
    else if f == 0 then
      Err(NoFeatures)
    else if f != |s.mean| then
      Err(FeatureCountMismatch(|s.mean|, f))
    else
      Ok(NdArray(x.shape, seq(|x.data|, i requires 0 <= i < |x.data| =>
        Standardized(x.data[i], s.mean[i % f], s.scale[i % f]))))
  }

  /**
   * The preprocessing both scoring services share: an array [B, H, F] is
   * viewed as [B*H, F], standardised column by column and viewed as
   * [B, H, F] again. An array without samples (B * H == 0) is refused by
   * the scaler.
   */
  function StandardizeHistory(s: Scaler, x: NdArray): (r: Result<NdArray, ShapeError>)
    requires Fitted(s) && Valid(x)
    ensures r.Ok? <==> |x.shape| == 3 && x.shape[0] * x.shape[1] > 0 && 0 < x.shape[2] == |s.mean|
    ensures |x.shape| != 3 ==> r == Err(NotThreeDimensional(|x.shape|))
    ensures |x.shape| == 3 && x.shape[2] == 0 ==> r == Err(ReshapeFailed)
    ensures |x.shape| == 3 && x.shape[2] > 0 && x.shape[0] * x.shape[1] == 0 ==> r == Err(NoSamples)
    ensures |x.shape| == 3 && x.shape[0] * x.shape[1] > 0 && 0 < x.shape[2] != |s.mean| ==>
      r == Err(FeatureCountMismatch(|s.mean|, x.shape[2]))
    ensures r.Ok? ==> r.value.shape == x.shape && Valid(r.value)
    ensures r.Ok? ==> forall i :: 0 <= i < |x.data| ==>
      r.value.data[i] == Standardized(x.data[i], s.mean[i % |s.mean|], s.scale[i % |s.mean|])
  {
    if |x.shape| != 3 then
      Err(NotThreeDimensional(|x.shape|))
    else
      var b, h, f := x.shape[0], x.shape[1], x.shape[2];
      assert x.shape == [b, h, f];
      Size3(b, h, f);
      assert f > 0 ==> |x.data| % f == 0 && |x.data| / f == b * h by {
        if f > 0 {
          DivModUnique(b * h * f, f, b * h, 0);
        }
      }
      match ReshapeRows(x, f)
      case None => Err(ReshapeFailed)
      case Some(flat) =>
        match Transform(s, flat)
        case Err(e) => Err(e)
        case Ok(y) => Ok(NdArray([b, h, f], y.data))
  }

  /** Element (b, h, f) of a standardised history is x[b, h, f] standardised by column f's statistics. */
  lemma StandardizeHistoryAt(s: Scaler, x: NdArray, b: nat, h: nat, f: nat)
    requires Fitted(s) && Valid(x) && |x.shape| == 3 && 0 < x.shape[2] == |s.mean|
    requires b < x.shape[0] && h < x.shape[1] && f < x.shape[2]
    ensures StandardizeHistory(s, x).Ok?
    ensures At3(StandardizeHistory(s, x).value, b, h, f) == Standardized(At3(x, b, h, f), s.mean[f], s.scale[f])
  {
    Size3(x.shape[0], x.shape[1], x.shape[2]);
    Offset3Bounds(x.shape[0], x.shape[1], x.shape[2], b, h, f);
  }

  /** t * w, with the vector w broadcast along the last axis of t. */
  function MultiplyLastAxis(t: NdArray, w: seq<real>): (r: NdArray)
    requires Valid(t) && |t.shape| > 0 && t.shape[|t.shape| - 1] == |w| > 0
    ensures r.shape == t.shape && Valid(r)
    ensures forall i :: 0 <= i < |t.data| ==> r.data[i] == t.data[i] * w[i % |w|]
  {
    NdArray(t.shape, seq(|t.data|, i requires 0 <= i < |t.data| => t.data[i] * w[i % |w|]))
  }
}
