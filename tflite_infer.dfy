/**
 * The shape and decoding rules of the TFLite classifier wrapper
 * (backend/src/tflite_infer.py). The interpreter itself is foreign: the
 * input tensor's shape and element type it reports, the colour-converted and
 * resized image, the raw output tensor and the softmax of the scores are
 * inputs of this model.
 */
module TfliteInfer {
  import opened Wrappers

  /** The element type of the model's input tensor. */
  datatype DType = UInt8 | Float32 | OtherDType(name: string)

  /** What the wrapper records once at load time; nothing changes it afterwards. */
  datatype ModelSpec = ModelSpec(inputShape: seq<int>, dtype: DType, height: int, width: int, channels: int)
  {
    predicate IsUint8() { dtype == UInt8 }
    predicate IsFloat32() { dtype == Float32 }
    predicate Batched() { |inputShape| == 4 }
  }

  datatype LoadError = UnsupportedShape(shape: seq<int>)

  /**
   * Decoding the input shape: rank 4 is `[batch, height, width, channels]`,
   * rank 3 is `[height, width, channels]`, any other rank is refused.
   */
  function LoadModelSpec(shape: seq<int>, dtype: DType): (r: Result<ModelSpec, LoadError>)
    ensures r.Ok? <==> |shape| == 3 || |shape| == 4
    ensures r.Err? ==> r.error == UnsupportedShape(shape)
    ensures |shape| == 4 ==> r == Ok(ModelSpec(shape, dtype, shape[1], shape[2], shape[3]))
    ensures |shape| == 3 ==> r == Ok(ModelSpec(shape, dtype, shape[0], shape[1], shape[2]))
  {
    if |shape| == 4 then Ok(ModelSpec(shape, dtype, shape[1], shape[2], shape[3]))
    else if |shape| == 3 then Ok(ModelSpec(shape, dtype, shape[0], shape[1], shape[2]))
    else Err(UnsupportedShape(shape))
  }

  /** Whatever the rank, height, width and channels are the last three dimensions of the shape. */
  lemma LoadedDimensionsAreTrailing(shape: seq<int>, dtype: DType)
    requires LoadModelSpec(shape, dtype).Ok?
    ensures var m := LoadModelSpec(shape, dtype).value;
            var n := |shape|;
            m.height == shape[n - 3] && m.width == shape[n - 2] && m.channels == shape[n - 1] &&
            m.Batched() == (n == 4) && m.inputShape == shape && m.dtype == dtype
  {
  }

  /** The input size the wrapper reports, width first. */
  function GetInputSize(m: ModelSpec): (size: (int, int))
    ensures size == (m.width, m.height)
  {
    (m.width, m.height)
  }

  /** For a loaded model, the reported size is the shape's width then its height. */
  lemma InputSizeFromShape(shape: seq<int>, dtype: DType)
    requires LoadModelSpec(shape, dtype).Ok?
    ensures GetInputSize(LoadModelSpec(shape, dtype).value) == (shape[|shape| - 2], shape[|shape| - 3])
  {
    LoadedDimensionsAreTrailing(shape, dtype);
  }

  // ----- Preprocessing -----

  type Byte = b: int | 0 <= b < 256

  /** An 8-bit image, row-major, after colour conversion and resizing. */
  datatype Image = Image(height: nat, width: nat, channels: nat, pixels: seq<Byte>)

  /** The tensor handed to the interpreter. */
  datatype InputTensor = InputTensor(dims: seq<int>, dtype: DType, values: seq<real>)

  /**
   * Batching and normalisation of a resized image: a batch dimension of 1 is
   * put in front exactly when the model's input has rank 4; a uint8 model gets
   * the pixel values unchanged, a float32 model and a model of any other
   * element type get them divided by 255 as float32.
   */
  function Preprocess(m: ModelSpec, image: Image): (t: InputTensor)
    ensures t.dims == (if m.Batched() then [1] else []) + [image.height, image.width, image.channels]
    ensures (|t.dims| == 4) == m.Batched()
    ensures |t.values| == |image.pixels|
    ensures m.IsUint8() ==>
              t.dtype == UInt8 &&
              forall i :: 0 <= i < |t.values| ==> t.values[i] == image.pixels[i] as real
    ensures !m.IsUint8() ==>
              t.dtype == Float32 &&
              forall i :: 0 <= i < |t.values| ==> t.values[i] * 255.0 == image.pixels[i] as real
  {
    var dims := (if m.Batched() then [1] else []) + [image.height, image.width, image.channels];
    if m.IsUint8() then
      InputTensor(dims, UInt8, seq(|image.pixels|, i requires 0 <= i < |image.pixels| => image.pixels[i] as real))
    else if m.IsFloat32() then
      InputTensor(dims, Float32, seq(|image.pixels|, i requires 0 <= i < |image.pixels| => image.pixels[i] as real / 255.0))
    else
      InputTensor(dims, Float32, seq(|image.pixels|, i requires 0 <= i < |image.pixels| => image.pixels[i] as real / 255.0))
  }

  /** The values given to a float model lie in [0, 1], and only a uint8 model sees values above 1. */
  lemma PreprocessRange(m: ModelSpec, image: Image)
    ensures var t := Preprocess(m, image);
            forall i :: 0 <= i < |t.values| ==>
              0.0 <= t.values[i] && (t.values[i] <= 1.0 || m.IsUint8()) &&
              (m.IsUint8() ==> t.values[i] <= 255.0)
  {
  }

  // ----- Post-processing -----

  /** The product of a tensor's dimensions: its number of elements. */
  function Product(dims: seq<nat>): nat
  {
    if dims == [] then 1 else dims[0] * Product(dims[1..])
  }

  /** A raw output tensor, row-major. */
  datatype OutputTensor = OutputTensor(dims: seq<nat>, data: seq<real>)
  {
    predicate WellFormed() { |data| == Product(dims) }
  }

  /**
   * The outputs whose scores the code can index one class at a time: rank at
   * least 1, and when the leading dimension of a tensor of rank 3 or more is
   * 1, the dimensions after the second multiply to 1 (as for shape
   * `(1, N, 1)`), so that row 0 holds one score per class. Any other output
   * makes `float(scores[class_index])` fail.
   */
  predicate FlatScores(dims: seq<nat>)
  {
    |dims| >= 1 && (|dims| <= 2 || dims[0] != 1 || Product(dims[2..]) == 1)
  }

  /**
   * The flattening step: a tensor of rank above 1 whose leading dimension is
   * 1 gives its row 0, any other tensor of rank above 1 is flattened, and a
   * rank-1 tensor is used as it is. In each branch the scores are the
   * tensor's elements in row-major order.
   */
  function Scores(out: OutputTensor): (scores: seq<real>)
    requires out.WellFormed() && FlatScores(out.dims)
    ensures scores == out.data
  {
    if |out.dims| > 1 then
      if out.dims[0] == 1 then out.data[..Product(out.dims[1..])] else out.data
    else out.data
  }

  /** The trigger of the softmax: some score is negative or the largest exceeds 1. */
  predicate NeedsSoftmax(scores: seq<real>)
    requires |scores| > 0
  {
    (exists i :: 0 <= i < |scores| && scores[i] < 0.0) || scores[ArgMax(scores)] > 1.0
  }

  /** Softmax runs exactly when the scores are not all within [0, 1]. */
  lemma NeedsSoftmaxIff(scores: seq<real>)
    requires |scores| > 0
    ensures !NeedsSoftmax(scores) <==> forall i :: 0 <= i < |scores| ==> 0.0 <= scores[i] <= 1.0
  {
    if forall i :: 0 <= i < |scores| ==> 0.0 <= scores[i] <= 1.0 {
      var k := ArgMax(scores);
      assert scores[k] <= 1.0;
    }
  }

  /** `np.argmax`: the first index holding the largest value. */
  function ArgMax(xs: seq<real>): (k: nat)
    requires |xs| > 0
    ensures k < |xs|
    ensures forall j :: 0 <= j < |xs| ==> xs[j] <= xs[k]
    ensures forall j :: 0 <= j < k ==> xs[j] < xs[k]
  {
    if |xs| == 1 then 0
    else
      var k := ArgMax(xs[..|xs| - 1]);
      if xs[|xs| - 1] > xs[k] then |xs| - 1 else k
  }

  /** The classifier's answer: the predicted class, its score and all scores. */
  datatype Classification = Classification(classIndex: nat, confidence: real, scores: seq<real>)

  /**
   * Why the code raises instead of answering: the output holds no score
   * (`np.max` of an empty array), or its shape does not give one score per
   * class (`FlatScores`).
   */
  datatype DecodeError = EmptyOutput | UnsupportedOutput(dims: seq<nat>)

  /**
   * The decoding of a raw output: the flattened scores, replaced by their
   * softmax (computed by the caller, `softmax`) when the trigger fires, then
   * the first maximal index and the score found there. An output with no
   * score is an error whatever its shape, since `np.max` raises before any
   * indexing; a non-empty output of an unsupported shape is an error too.
   */
  function Decode(out: OutputTensor, softmax: seq<real>): (r: Result<Classification, DecodeError>)
    requires out.WellFormed()
    requires |softmax| == |out.data|
    ensures r.Err? <==> |out.data| == 0 || !FlatScores(out.dims)
    ensures |out.data| == 0 ==> r == Err(EmptyOutput)
    ensures |out.data| > 0 && !FlatScores(out.dims) ==> r == Err(UnsupportedOutput(out.dims))
    ensures r.Ok? ==>
              var p := r.value;
              && p.scores == (if NeedsSoftmax(out.data) then softmax else out.data)
              && p.classIndex < |p.scores|
              && p.confidence == p.scores[p.classIndex]
              && (forall j :: 0 <= j < |p.scores| ==> p.scores[j] <= p.confidence)
              && (forall j :: 0 <= j < p.classIndex ==> p.scores[j] < p.confidence)
  {
    if |out.data| == 0 then Err(EmptyOutput)
    else if !FlatScores(out.dims) then Err(UnsupportedOutput(out.dims))
    else
      var scores := if NeedsSoftmax(Scores(out)) then softmax else Scores(out);
      var k := ArgMax(scores);
      Ok(Classification(k, scores[k], scores))
  }

  /**
   * Scores already within [0, 1] pass through unchanged, so the confidence is
   * the raw score at the chosen index and lies in [0, 1].
   */
  lemma DecodePassThrough(out: OutputTensor, softmax: seq<real>)
    requires out.WellFormed() && FlatScores(out.dims)
    requires |softmax| == |out.data| && |out.data| > 0
    requires forall i :: 0 <= i < |out.data| ==> 0.0 <= out.data[i] <= 1.0
    ensures var r := Decode(out, softmax);
            r.Ok? && r.value.scores == out.data && 0.0 <= r.value.confidence <= 1.0
  {
    NeedsSoftmaxIff(out.data);
  }

  /**
   * An output of shape `(1, N, 1)` decodes: row 0 has shape `(N, 1)`, and
   * each of its entries holds one class's score.
   */
  lemma ColumnOutputDecodes(n: nat, data: seq<real>, softmax: seq<real>)
    requires n > 0 && |data| == n && |softmax| == n
    ensures var out := OutputTensor([1, n, 1], data);
            out.WellFormed() && Decode(out, softmax).Ok?
  {
    var dims: seq<nat> := [1, n, 1];
    assert dims[2..] == [1] && Product([1]) == 1;
    assert dims[1..] == [n, 1] && [n, 1][1..] == [1];
    assert Product(dims) == n;
  }

  /** An output of two classes in which class 0 scores 0.9. */
  const ExampleOutput: OutputTensor := OutputTensor([2], [0.9, 0.1])

  /** The example output needs no softmax and decodes to class 0 with confidence 0.9. */
  lemma ExampleDecode()
    ensures ExampleOutput.WellFormed()
    ensures Decode(ExampleOutput, [0.5, 0.5]).Ok?
    ensures var c := Decode(ExampleOutput, [0.5, 0.5]).value;
            c.classIndex == 0 && c.confidence == 0.9 && c.scores == [0.9, 0.1]
  {
    var d := Decode(ExampleOutput, [0.5, 0.5]);
    assert Product([2]) == 2;
    assert FlatScores(ExampleOutput.dims);
    assert !NeedsSoftmax(ExampleOutput.data);
    assert d.value.scores == [0.9, 0.1];
    assert d.value.classIndex == 0;
  }
}
