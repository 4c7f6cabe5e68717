/**
 * The recognition service of the web API (backend/src/web_api.py): the
 * payload size check, point normalisation, the clamping of configuration
 * values, the face-landmark stride filter of the segmentation service, and
 * one step of the ASL session (`ASLService.predict`) with its smoother,
 * confidence gate and letters-per-second counter.
 *
 * Everything foreign is an input: the image decoder's answer, the hand,
 * pose and face detectors' landmarks, the classifier's answer for the
 * cropped hand, and the clock's reading `now`.
 */
module WebApi {
  import opened Wrappers
  import opened Labels
  import opened Utils
  import opened HandRoi
  import TfliteInfer

  // ----- Configuration -----

  /** The service configuration, as read from the environment. */
  datatype AppConfig = AppConfig(
    smoothingWindow: int, padding: real, minConfidence: real, frameMaxSize: int, faceStride: int)

  /** The values used when the environment sets nothing. */
  const DefaultConfig: AppConfig := AppConfig(5, 0.2, 0.7, 900 * 1024, 6)

  /** `max(0.0, min(1.0, v))`: the value clamped into [0, 1]. */
  function Clamp01(v: real): (r: real)
    ensures 0.0 <= r <= 1.0
    ensures 0.0 <= v <= 1.0 ==> r == v
    ensures v < 0.0 ==> r == 0.0
    ensures v > 1.0 ==> r == 1.0
  {
    if v < 0.0 then 0.0 else if v > 1.0 then 1.0 else v
  }

  /** The face stride clamped into [2, 10]. */
  function ClampStride(stride: int): (r: int)
    ensures 2 <= r <= 10
    ensures 2 <= stride <= 10 ==> r == stride
    ensures stride < 2 ==> r == 2
    ensures stride > 10 ==> r == 10
  {
    if stride < 2 then 2 else if stride > 10 then 10 else stride
  }

  // ----- Payload decoding -----

  datatype HttpError = FrameTooLarge(size: nat) | InvalidImage
  {
    function Status(): int
    {
      match this
      case FrameTooLarge(_) => 413
      case InvalidImage => 400
    }
  }

  /**
   * The upload check: a payload longer than the limit is refused with 413
   * whatever it holds; otherwise the decoder's answer (`decoded`) is taken,
   * and an undecodable payload is refused with 400.
   */
  function DecodeImageBytes<P>(raw: seq<TfliteInfer.Byte>, maxSize: int, decoded: Option<Frame<P>>): (r: Result<Frame<P>, HttpError>)
    ensures r == Err(FrameTooLarge(|raw|)) <==> |raw| > maxSize
    ensures r == Err(InvalidImage) <==> |raw| <= maxSize && decoded.None?
    ensures r.Ok? <==> |raw| <= maxSize && decoded.Some?
    ensures r.Ok? ==> r.value == decoded.value
  {
    if |raw| > maxSize then Err(FrameTooLarge(|raw|))
    else if decoded.None? then Err(InvalidImage)
    else Ok(decoded.value)
  }

  /** The size check happens before decoding: an oversized payload gets 413 whatever the decoder would say. */
  lemma OversizeIgnoresDecoder<P>(raw: seq<TfliteInfer.Byte>, maxSize: int, d1: Option<Frame<P>>, d2: Option<Frame<P>>)
    requires |raw| > maxSize
    ensures DecodeImageBytes(raw, maxSize, d1) == DecodeImageBytes(raw, maxSize, d2)
    ensures DecodeImageBytes(raw, maxSize, d1).error.Status() == 413
  {
  }

  // ----- Points -----

  /** A point sent to the client. */
  datatype Point = Point(x: real, y: real)

  /** A pixel position normalised by the frame size and clamped into [0, 1]; (0, 0) for a frame without area. */
  function NormPoint(x: real, y: real, width: int, height: int): (p: Point)
    ensures width <= 0 || height <= 0 ==> p == Point(0.0, 0.0)
    ensures width > 0 && height > 0 ==>
              p == Point(Clamp01(x / width as real), Clamp01(y / height as real))
    ensures 0.0 <= p.x <= 1.0 && 0.0 <= p.y <= 1.0
  {
    if width <= 0 || height <= 0 then Point(0.0, 0.0)
    else Point(Clamp01(x / width as real), Clamp01(y / height as real))
  }

  /** A pixel position inside the frame comes back from normalisation exactly. */
  lemma NormPointInFrame(x: real, y: real, width: int, height: int)
    requires width > 0 && height > 0
    requires 0.0 <= x <= width as real && 0.0 <= y <= height as real
    ensures var p := NormPoint(x, y, width, height);
            p.x * width as real == x && p.y * height as real == y
  {
    assert x / width as real <= 1.0;
    assert y / height as real <= 1.0;
  }

  /** A normalised landmark scaled to the frame and normalised back: the landmark clamped into [0, 1]. */
  function ScaledPoint(lm: Landmark, w: nat, h: nat): (p: Point)
    ensures w > 0 && h > 0 ==> p == Point(Clamp01(lm.x), Clamp01(lm.y))
    ensures w == 0 || h == 0 ==> p == Point(0.0, 0.0)
  {
    assert w > 0 ==> lm.x * w as real / w as real == lm.x;
    assert h > 0 ==> lm.y * h as real / h as real == lm.y;
    NormPoint(lm.x * w as real, lm.y * h as real, w, h)
  }

  /** The pose points: every pose landmark, scaled and normalised, in order. */
  function PosePoints(pose: seq<Landmark>, w: nat, h: nat): (r: seq<Point>)
    ensures |r| == |pose|
    ensures forall i :: 0 <= i < |pose| ==> r[i] == ScaledPoint(pose[i], w, h)
  {
    seq(|pose|, i requires 0 <= i < |pose| => ScaledPoint(pose[i], w, h))
  }

  /** The landmarks from index `i` on whose index is a multiple of `stride`, in order. */
  function EveryNth(lms: seq<Landmark>, stride: int, i: nat): seq<Landmark>
    requires stride > 0
    decreases |lms| - i
  {
    if i >= |lms| then []
    else (if i % stride == 0 then [lms[i]] else []) + EveryNth(lms, stride, i + 1)
  }

  lemma ModOffset(p: nat, d: int, s: int)
    requires s > 0 && 0 <= d < s
    ensures (p * s + d) % s == d
  {
    var x := p * s + d;
    var q, r := x / s, x % s;
    assert x == q * s + r;
    assert (q - p) * s == d - r;
    if q - p >= 1 {
      assert false;
    } else if q - p <= -1 {
      assert false;
    }
  }

  lemma MulSucc(a: int, s: int)
    ensures (a + 1) * s == a * s + s
  {
  }

  /** Past a multiple of the stride, the remainder is the offset. */
  lemma ModAdd(a: nat, d: int, s: int)
    requires s > 0 && a % s == 0 && 0 <= d < s
    ensures (a + d) % s == d
  {
    var q: nat := a / s;
    assert a == q * s;
    ModOffset(q, d, s);
  }

  /** The next multiple of the stride. */
  lemma ModNext(a: nat, s: int)
    requires s > 0 && a % s == 0
    ensures (a + s) % s == 0
  {
    var q: nat := a / s;
    assert a == q * s;
    MulSucc(q, s);
    ModOffset(q + 1, 0, s);
  }

  /** Between two multiples of the stride nothing is kept. */
  lemma {:induction false} EveryNthGap(lms: seq<Landmark>, s: int, a: nat, d: int)
    requires s > 0 && a % s == 0 && 0 < d <= s
    ensures EveryNth(lms, s, a + d) == EveryNth(lms, s, a + s)
    decreases s - d
  {
    if d < s && a + d < |lms| {
      ModAdd(a, d, s);
      EveryNthGap(lms, s, a, d + 1);
    }
  }

  /** Putting the landmark at `a` in front of the entries kept from `a + s` on. */
  lemma ShiftedEntries(lms: seq<Landmark>, s: int, a: nat, rest: seq<Landmark>)
    requires s > 0 && a < |lms|
    requires forall k :: 0 <= k < |rest| ==> a + s + k * s < |lms| && rest[k] == lms[a + s + k * s]
    ensures var r := [lms[a]] + rest;
            forall k :: 0 <= k < |r| ==> a + k * s < |lms| && r[k] == lms[a + k * s]
  {
    var r := [lms[a]] + rest;
    forall k | 0 <= k < |r|
      ensures a + k * s < |lms| && r[k] == lms[a + k * s]
    {
      if k > 0 {
        assert r[k] == rest[k - 1];
        MulSucc(k - 1, s);
      }
    }
  }

  /**
   * From a multiple `a` of the stride on, the kept landmarks are those at
   * `a`, `a + s`, ...: entry `k` is the landmark at `a + k * s`, and every
   * multiple of the stride before the end of the list is kept.
   */
  lemma {:induction false} EveryNthSpec(lms: seq<Landmark>, s: int, a: nat)
    requires s > 0 && a % s == 0
    ensures var r := EveryNth(lms, s, a);
            && (forall k :: 0 <= k < |r| ==> a + k * s < |lms| && r[k] == lms[a + k * s])
            && a + |r| * s >= |lms|
    decreases |lms| - a
  {
    var r := EveryNth(lms, s, a);
    if a < |lms| {
      EveryNthGap(lms, s, a, 1);
      var rest := EveryNth(lms, s, a + s);
      assert r == [lms[a]] + rest;
      ModNext(a, s);
      EveryNthSpec(lms, s, a + s);
      ShiftedEntries(lms, s, a, rest);
      MulSucc(|rest|, s);
    }
  }

  /**
   * The face points: with the face requested and a face found, the first
   * face's landmarks whose index is a multiple of the stride, scaled and
   * normalised, in order; entry `k` comes from landmark `k * stride`, and
   * no multiple of the stride below the landmark count is skipped.
   */
  function FacePoints(faces: seq<seq<Landmark>>, withFace: bool, stride: int, w: nat, h: nat): (r: seq<Point>)
    requires stride > 0
    ensures !withFace || |faces| == 0 ==> r == []
    ensures withFace && |faces| > 0 ==>
              && (forall k :: 0 <= k < |r| ==> k * stride < |faces[0]| && r[k] == ScaledPoint(faces[0][k * stride], w, h))
              && |r| * stride >= |faces[0]|
  {
    if withFace && |faces| > 0 then
      var kept := EveryNth(faces[0], stride, 0);
      EveryNthSpec(faces[0], stride, 0);
      seq(|kept|, k requires 0 <= k < |kept| => ScaledPoint(kept[k], w, h))
    else []
  }

  // ----- Segmentation service -----

  datatype SegmentationService = SegmentationService(faceStride: int, modelStatus: string, modelMessage: string)

  /** The segmentation service as built: its face stride clamped into [2, 10]. */
  function NewSegmentationService(faceStride: int): (svc: SegmentationService)
    ensures 2 <= svc.faceStride <= 10
    ensures 2 <= faceStride <= 10 ==> svc.faceStride == faceStride
    ensures svc.modelStatus == "loaded" && svc.modelMessage == "MediaPipe Pose + FaceMesh loaded"
  {
    SegmentationService(ClampStride(faceStride), "loaded", "MediaPipe Pose + FaceMesh loaded")
  }

  datatype SegmentationResult = SegmentationResult(
    posePoints: seq<Point>, facePoints: seq<Point>, modelStatus: string, message: string)

  /**
   * One segmentation request: the detected pose (empty when none) and the
   * detected faces are inputs. Every returned point lies in the unit square,
   * and at most one face point is kept per `faceStride` landmarks.
   */
  function SegmentationPredict<P>(svc: SegmentationService, frame: Frame<P>, pose: seq<Landmark>,
                                  faces: seq<seq<Landmark>>, withFace: bool): (r: SegmentationResult)
    requires 2 <= svc.faceStride
    ensures r.posePoints == PosePoints(pose, frame.width, frame.Height())
    ensures r.facePoints == FacePoints(faces, withFace, svc.faceStride, frame.width, frame.Height())
    ensures r.modelStatus == svc.modelStatus && r.message == svc.modelMessage
    ensures forall i :: 0 <= i < |r.posePoints| ==> 0.0 <= r.posePoints[i].x <= 1.0 && 0.0 <= r.posePoints[i].y <= 1.0
    ensures forall i :: 0 <= i < |r.facePoints| ==> 0.0 <= r.facePoints[i].x <= 1.0 && 0.0 <= r.facePoints[i].y <= 1.0
  {
    SegmentationResult(PosePoints(pose, frame.width, frame.Height()),
                       FacePoints(faces, withFace, svc.faceStride, frame.width, frame.Height()),
                       svc.modelStatus, svc.modelMessage)
  }

  // ----- Start-up and routes -----

  /**
   * The frame both prediction routes hand on: the uploaded payload checked
   * against the configured size limit, then the decoder's answer.
   */
  function RequestFrame<P>(cfg: AppConfig, raw: seq<TfliteInfer.Byte>, decoded: Option<Frame<P>>): (r: Result<Frame<P>, HttpError>)
    ensures r.Err? && r.error.FrameTooLarge? <==> |raw| > cfg.frameMaxSize
    ensures r.Err? && r.error.FrameTooLarge? ==> r.error.size == |raw|
    ensures r.Err? && r.error.InvalidImage? <==> |raw| <= cfg.frameMaxSize && decoded.None?
    ensures r.Ok? <==> |raw| <= cfg.frameMaxSize && decoded.Some?
    ensures r.Ok? ==> r.value == decoded.value
  {
    DecodeImageBytes(raw, cfg.frameMaxSize, decoded)
  }

  /** The segmentation service built at start-up from the configured face stride. */
  function StartSegmentationService(cfg: AppConfig): (svc: SegmentationService)
    ensures svc.faceStride == ClampStride(cfg.faceStride) && svc.modelStatus == "loaded"
  {
    NewSegmentationService(cfg.faceStride)
  }

  /**
   * With the default configuration a payload of up to 900 KiB is handed to
   * the decoder, a larger one is refused with 413, and faces are sampled
   * every 6th landmark.
   */
  lemma DefaultRoutes<P>(raw: seq<TfliteInfer.Byte>, decoded: Option<Frame<P>>)
    ensures |raw| <= 921600 && decoded.Some? ==> RequestFrame(DefaultConfig, raw, decoded) == Ok(decoded.value)
    ensures |raw| > 921600 ==> RequestFrame(DefaultConfig, raw, decoded) == Err(FrameTooLarge(|raw|))
    ensures StartSegmentationService(DefaultConfig).faceStride == 6
  {
  }

  // ----- The ASL session -----

  const NoHand: string := "No hand"
  const ModelUnavailable: string := "Model unavailable"

  /** The labels that are not letters: they do not count towards letters per second. */
  predicate IsLetter(text: string)
  {
    text != NoHand && text != Unknown && text != "NOTHING" && text != "Error"
  }

  /**
   * The confidence gate on the smoothed answer: a class whose mean confidence
   * reaches the minimum is shown with its label; below the minimum the label
   * is "No hand" but the smoothed confidence is still reported; with no
   * smoothed class the answer is "No hand" with confidence 0.
   */
  function Gate(smoothed: (Option<int>, real), minConfidence: real, labels: seq<string>): (r: (string, real))
    ensures smoothed.0.None? ==> r == (NoHand, 0.0)
    ensures smoothed.0.Some? ==> r.1 == smoothed.1
    ensures r.0 != NoHand ==> smoothed.0.Some? && smoothed.1 >= minConfidence
    ensures smoothed.0.Some? && smoothed.1 >= minConfidence ==> r.0 == GetLabel(smoothed.0.value, Some(labels))
  {
    match smoothed.0
    case None => (NoHand, 0.0)
    case Some(idx) =>
      if smoothed.1 >= minConfidence then (GetLabel(idx, Some(labels)), smoothed.1)
      else (NoHand, smoothed.1)
  }

  /** With a table of letters, the gate shows a letter exactly when a class passes the minimum. */
  lemma GateShowsLetterIff(smoothed: (Option<int>, real), minConfidence: real)
    ensures IsLetter(Gate(smoothed, minConfidence, DefaultLabels).0) <==>
              smoothed.0.Some? && smoothed.1 >= minConfidence && 0 <= smoothed.0.value < 28
  {
    DefaultLabelsShape();
    if smoothed.0.Some? && smoothed.1 >= minConfidence {
      var idx := smoothed.0.value;
      DefaultLookupUnknownIff(idx);
      if 0 <= idx < 26 {
        assert GetLabel(idx, Some(DefaultLabels)) == [('A' as int + idx) as char];
      } else if idx == 26 {
        assert GetLabel(idx, Some(DefaultLabels)) == "SPACE";
      } else if idx == 27 {
        assert GetLabel(idx, Some(DefaultLabels)) == "DELETE";
      } else if idx == 28 {
        assert GetLabel(idx, Some(DefaultLabels)) == "NOTHING";
      }
    }
  }

  /** The letters-per-second counter: when the last second was closed, the letters counted since, the last rate. */
  datatype LetterCounter = LetterCounter(lastEmitTs: real, countCurrentSecond: nat, lettersPerSecond: nat)

  /**
   * One frame of the counter: a letter is counted first; then, when a second
   * or more has passed since the last emission, the count becomes the rate,
   * restarts at zero and the emission time becomes `now`.
   */
  function Tick(c: LetterCounter, text: string, now: real): (c': LetterCounter)
    ensures var counted := c.countCurrentSecond + (if IsLetter(text) then 1 else 0);
            if now - c.lastEmitTs >= 1.0 then
              c' == LetterCounter(now, 0, counted)
            else
              c' == LetterCounter(c.lastEmitTs, counted, c.lettersPerSecond)
  {
    var counted := if IsLetter(text) then c.countCurrentSecond + 1 else c.countCurrentSecond;
    if now - c.lastEmitTs >= 1.0 then LetterCounter(now, 0, counted)
    else LetterCounter(c.lastEmitTs, counted, c.lettersPerSecond)
  }

  /** The counter over a run of frames, each a label and a clock reading. */
  function Run(c: LetterCounter, frames: seq<(string, real)>): LetterCounter
  {
    if frames == [] then c else Tick(Run(c, frames[..|frames| - 1]), frames[|frames| - 1].0, frames[|frames| - 1].1)
  }

  /** How many frames of a run show a letter. */
  function LetterFrames(frames: seq<(string, real)>): nat
  {
    if frames == [] then 0
    else LetterFrames(frames[..|frames| - 1]) + (if IsLetter(frames[|frames| - 1].0) then 1 else 0)
  }

  /** Within a second no rate is emitted, and the count is the letters seen since the last emission. */
  lemma {:induction false} RunWithinSecond(c: LetterCounter, frames: seq<(string, real)>)
    requires forall i :: 0 <= i < |frames| ==> frames[i].1 - c.lastEmitTs < 1.0
    ensures Run(c, frames) ==
              LetterCounter(c.lastEmitTs, c.countCurrentSecond + LetterFrames(frames), c.lettersPerSecond)
  {
    if frames != [] {
      RunWithinSecond(c, frames[..|frames| - 1]);
    }
  }

  /**
   * The emitted rate counts every letter since the previous emission,
   * including the letter of the emitting frame itself, since the count is
   * taken before the snapshot.
   */
  lemma EmittedRate(c: LetterCounter, frames: seq<(string, real)>)
    requires |frames| > 0
    requires forall i :: 0 <= i < |frames| - 1 ==> frames[i].1 - c.lastEmitTs < 1.0
    requires frames[|frames| - 1].1 - c.lastEmitTs >= 1.0
    ensures Run(c, frames) ==
              LetterCounter(frames[|frames| - 1].1, 0, c.countCurrentSecond + LetterFrames(frames))
  {
    RunWithinSecond(c, frames[..|frames| - 1]);
  }

  const MissingMessage: string :=
    "ASL model missing. Set ASL_MODEL_PATH or configure KAGGLE_USERNAME/KAGGLE_KEY for auto-download. Reason: "

  /** What the model loader reported. */
  datatype LoadOutcome = ModelMissing(reason: string) | ModelLoaded | ModelLoadError(error: string)

  /** The status and message the service shows for a load outcome. */
  function LoadStatus(outcome: LoadOutcome): (r: (string, string))
    ensures outcome.ModelLoaded? <==> r.0 == "loaded"
    ensures outcome.ModelMissing? ==> r.0 == "model_missing"
    ensures outcome.ModelLoadError? ==> r.0 == "error"
  {
    match outcome
    case ModelMissing(reason) => ("model_missing", MissingMessage + reason)
    case ModelLoaded => ("loaded", "ASL model loaded")
    case ModelLoadError(error) => ("error", "ASL model load error: " + error)
  }

  /** The text of the exception the wrapper raises for an input rank other than 3 or 4. */
  const UnsupportedShapeText: string := "Shape d'entrée non supportée: "

  /**
   * `_load_model`: when no model file is present after the download attempt
   * (`reason` is the download's answer) the model is missing. Otherwise the
   * wrapper is built; when it raises, the outcome is a load error with the
   * exception's text. `wrapperError` is the text of a failure before the
   * input shape is read (TFLite unavailable, interpreter error), and
   * `shapeText` numpy's printing of the input shape.
   */
  function LoadModel(modelPresent: bool, reason: string, wrapperError: Option<string>,
                     shape: seq<int>, shapeText: string, dtype: TfliteInfer.DType): (r: LoadOutcome)
    ensures !modelPresent ==> r == ModelMissing(reason)
    ensures modelPresent && wrapperError.Some? ==> r == ModelLoadError(wrapperError.value)
    ensures modelPresent && wrapperError.None? ==>
              (r == ModelLoaded <==> TfliteInfer.LoadModelSpec(shape, dtype).Ok?)
    ensures modelPresent && wrapperError.None? && r != ModelLoaded ==>
              r == ModelLoadError(UnsupportedShapeText + shapeText)
  {
    if !modelPresent then ModelMissing(reason)
    else if wrapperError.Some? then ModelLoadError(wrapperError.value)
    else if TfliteInfer.LoadModelSpec(shape, dtype).Ok? then ModelLoaded
    else ModelLoadError(UnsupportedShapeText + shapeText)
  }

  /** A present model whose input rank is neither 3 nor 4 leaves the service in status `error` without a model. */
  lemma UnsupportedRankIsError(shape: seq<int>, shapeText: string, dtype: TfliteInfer.DType, reason: string)
    requires |shape| != 3 && |shape| != 4
    ensures var outcome := LoadModel(true, reason, None, shape, shapeText, dtype);
            !outcome.ModelLoaded? && LoadStatus(outcome) == ("error", "ASL model load error: " + UnsupportedShapeText + shapeText)
  {
    assert LoadModel(true, reason, None, shape, shapeText, dtype) == ModelLoadError(UnsupportedShapeText + shapeText);
    var prefix := "ASL model load error: ";
    assert prefix + (UnsupportedShapeText + shapeText) == prefix + UnsupportedShapeText + shapeText;
  }

  /** The answer of one ASL request (the frame rate is not modelled). */
  datatype AslResult = AslResult(
    labelText: string, confidence: real, lettersPerSecond: nat, handLandmarks: seq<Point>,
    bbox: Option<Box>, modelStatus: string, message: string)

  /** The raw landmarks of the first detected hand, as points. */
  function HandPoints(hands: seq<seq<Landmark>>): (r: seq<Point>)
    ensures |hands| == 0 ==> r == []
    ensures |hands| > 0 ==>
              |r| == |hands[0]| &&
              forall i :: 0 <= i < |r| ==> r[i] == Point(hands[0][i].x, hands[0][i].y)
  {
    if |hands| == 0 then []
    else seq(|hands[0]|, i requires 0 <= i < |hands[0]| => Point(hands[0][i].x, hands[0][i].y))
  }

  /** A step the classifier could not complete: the output did not decode. */
  datatype StepError = ClassifierFailed(error: TfliteInfer.DecodeError)

  /** The classifier's output decodes to an answer. */
  predicate Decodes(out: TfliteInfer.OutputTensor, softmax: seq<real>)
    requires out.WellFormed() && |softmax| == |out.data|
  {
    TfliteInfer.Decode(out, softmax).Ok?
  }

  /** The smoother entry for a classifier answer: its class and its confidence. */
  function Vote(c: TfliteInfer.Classification): Prediction
  {
    Prediction(c.classIndex, c.confidence)
  }

  class ASLService {
    const labels: seq<string>
    const paddingRatio: real
    const minConfidence: real
    const smoother: PredictionSmoother
    const modelLoaded: bool
    const modelStatus: string
    const modelMessage: string
    var currentLabel: string
    var currentConfidence: real
    var lastEmitTs: real
    var lettersCountCurrentSecond: nat
    var lettersPerSecond: nat

    ghost predicate Valid()
      reads this, smoother
    {
      smoother.Valid() && 0.0 <= minConfidence <= 1.0 && |labels| > 0
    }

    function Counter(): LetterCounter
      reads this
    {
      LetterCounter(lastEmitTs, lettersCountCurrentSecond, lettersPerSecond)
    }

    /**
     * The service as built from its configuration, the lines of the labels
     * file (`None` when it does not exist) and what the model loader
     * reported: the minimum confidence is clamped into [0, 1] and nothing
     * has been recognised yet.
     */
    constructor (cfg: AppConfig, labelsFile: Option<seq<string>>, outcome: LoadOutcome)
      requires cfg.smoothingWindow >= 0
      ensures Valid() && fresh(smoother)
      ensures labels == LoadLabels(labelsFile) && paddingRatio == cfg.padding
      ensures minConfidence == Clamp01(cfg.minConfidence)
      ensures smoother.windowSize == cfg.smoothingWindow && smoother.predictions == []
      ensures modelLoaded == outcome.ModelLoaded? && (modelStatus, modelMessage) == LoadStatus(outcome)
      ensures currentLabel == NoHand && currentConfidence == 0.0
      ensures Counter() == LetterCounter(0.0, 0, 0)
    {
      labels := LoadLabels(labelsFile);
      paddingRatio := cfg.padding;
      smoother := new PredictionSmoother(cfg.smoothingWindow);
      minConfidence := Clamp01(cfg.minConfidence);
      modelLoaded := outcome.ModelLoaded?;
      modelStatus := LoadStatus(outcome).0;
      modelMessage := LoadStatus(outcome).1;
      currentLabel := NoHand;
      currentConfidence := 0.0;
      lastEmitTs := 0.0;
      lettersCountCurrentSecond := 0;
      lettersPerSecond := 0;
    }

    /** The extractor finds a hand and crops it from the frame. */
    predicate HandCropped<P>(frame: Frame<P>, roiHands: seq<seq<Landmark>>)
      requires frame.WellFormed() && (|roiHands| > 0 ==> |roiHands[0]| > 0)
    {
      ExtractRoi(frame, roiHands, paddingRatio).Roi?
    }

    /** The box reported for the frame: the cropped hand's box, if any. */
    function HandBbox<P>(frame: Frame<P>, roiHands: seq<seq<Landmark>>): Option<Box>
      requires frame.WellFormed() && (|roiHands| > 0 ==> |roiHands[0]| > 0)
    {
      var roi := ExtractRoi(frame, roiHands, paddingRatio);
      if roi.Roi? then Some(roi.box) else None
    }

    /**
     * One recognition step. `roiHands` and `pointHands` are the two hand
     * detector answers for the frame (the extractor's and the one used for
     * the returned landmarks), `out` the interpreter's output tensor for the
     * cropped hand and `softmax` the softmax of its scores, `now` the clock.
     *
     * Without a model the answer is "Model unavailable" and nothing changes.
     * Otherwise a cropped hand is classified by decoding `out`; an output the
     * classifier cannot decode fails the step and changes nothing. A decoded
     * vote is pushed into the smoother and the smoothed answer gated; no hand
     * resets the smoother and shows "No hand" with confidence 0; then the
     * letter counter ticks.
     */
    method Predict<P>(frame: Frame<P>, roiHands: seq<seq<Landmark>>, pointHands: seq<seq<Landmark>>,
                      out: TfliteInfer.OutputTensor, softmax: seq<real>, now: real)
      returns (r: Result<AslResult, StepError>)
      requires Valid() && frame.WellFormed()
      requires |roiHands| > 0 ==> |roiHands[0]| > 0
      requires out.WellFormed() && |softmax| == |out.data|
      modifies this, smoother
      ensures Valid()
      ensures !modelLoaded ==>
                && r == Ok(AslResult(ModelUnavailable, 0.0, 0, [], None, modelStatus, modelMessage))
                && unchanged(this) && unchanged(smoother)
      ensures modelLoaded && HandCropped(frame, roiHands) && !Decodes(out, softmax) ==>
                && r == Err(ClassifierFailed(TfliteInfer.Decode(out, softmax).error))
                && unchanged(this) && unchanged(smoother)
      ensures modelLoaded && HandCropped(frame, roiHands) && Decodes(out, softmax) ==>
                && smoother.predictions == Push(old(smoother.predictions), Vote(TfliteInfer.Decode(out, softmax).value), smoother.windowSize)
                && (currentLabel, currentConfidence) == Gate(SmoothedPrediction(smoother.predictions), minConfidence, labels)
      ensures modelLoaded && !HandCropped(frame, roiHands) ==>
                smoother.predictions == [] && currentLabel == NoHand && currentConfidence == 0.0
      ensures modelLoaded && (!HandCropped(frame, roiHands) || Decodes(out, softmax)) ==>
                && Counter() == Tick(old(Counter()), currentLabel, now)
                && r == Ok(AslResult(currentLabel, currentConfidence, lettersPerSecond, HandPoints(pointHands),
                                     HandBbox(frame, roiHands), modelStatus, modelMessage))
    {
      if !modelLoaded {
        return Ok(AslResult(ModelUnavailable, 0.0, 0, [], None, modelStatus, modelMessage));
      }
      var roi := ExtractRoi(frame, roiHands, paddingRatio);
      var handPoints := HandPoints(pointHands);
      var vote: Option<Prediction> := None;
      if roi.Roi? {
        var decoded := TfliteInfer.Decode(out, softmax);
        if decoded.Err? {
          return Err(ClassifierFailed(decoded.error));
        }
        vote := Some(Vote(decoded.value));
      }
      Recognise(vote);
      CountLetter(now);
      r := Ok(AslResult(currentLabel, currentConfidence, lettersPerSecond, handPoints,
                        if roi.Roi? then Some(roi.box) else None, modelStatus, modelMessage));
    }

    /**
     * The classification half of a step: push the classifier's vote for a
     * found hand and gate the smoothed answer, or reset when there is no hand.
     */
    method Recognise(vote: Option<Prediction>)
      requires Valid()
      modifies this, smoother
      ensures Valid()
      ensures vote.Some? ==>
                && smoother.predictions == Push(old(smoother.predictions), vote.value, smoother.windowSize)
                && (currentLabel, currentConfidence) == Gate(SmoothedPrediction(smoother.predictions), minConfidence, labels)
      ensures vote.None? ==> smoother.predictions == [] && currentLabel == NoHand && currentConfidence == 0.0
      ensures Counter() == old(Counter())
    {
      if vote.Some? {
        smoother.AddPrediction(vote.value.classIndex, vote.value.confidence);
        var smoothedIdx, smoothedConf := smoother.GetSmoothedPrediction();
        if smoothedIdx.Some? {
          if smoothedConf >= minConfidence {
            currentLabel := GetLabel(smoothedIdx.value, Some(labels));
            currentConfidence := smoothedConf;
          } else {
            currentLabel := NoHand;
            currentConfidence := smoothedConf;
          }
        } else {
          currentLabel := NoHand;
          currentConfidence := 0.0;
        }
      } else {
        smoother.Reset();
        currentLabel := NoHand;
        currentConfidence := 0.0;
      }
    }

    /** The counter half of a step: count the shown label, and emit the rate once a second has passed. */
    method CountLetter(now: real)
      modifies this
      ensures Counter() == Tick(old(Counter()), currentLabel, now)
      ensures currentLabel == old(currentLabel) && currentConfidence == old(currentConfidence)
    {
      if IsLetter(currentLabel) {
        lettersCountCurrentSecond := lettersCountCurrentSecond + 1;
      }
      if now - lastEmitTs >= 1.0 {
        lettersPerSecond := lettersCountCurrentSecond;
        lettersCountCurrentSecond := 0;
        lastEmitTs := now;
      }
    }
  }

  /**
   * The session as a whole, on a service built from the default
   * configuration with a loaded model and no labels file: in two frames the
   * classifier votes class 0 with confidence 0.9, the second a second after
   * start. Both frames show "A" with 0.9, and the second emits a rate of 2
   * letters per second. Each frame is the found-hand branch of `Predict`:
   * `Recognise` with the vote, then `CountLetter`; `ExampleFrameInputs`
   * gives a frame, a hand and an output that take that branch.
   */
  method SessionExample() returns (svc: ASLService, first: (string, real))
    ensures first == ("A", 0.9)
    ensures svc.currentLabel == "A" && svc.currentConfidence == 0.9 && svc.lettersPerSecond == 2
  {
    svc := new ASLService(DefaultConfig, None, ModelLoaded);
    LoadLabelsNone();
    ExampleTicks();
    SessionStep(svc, 0.5);
    first := (svc.currentLabel, svc.currentConfidence);
    SessionStep(svc, 1.0);
  }

  /** The service's settings are the defaults, with no labels file and a loaded model. */
  predicate DefaultSettings(svc: ASLService)
    reads svc
  {
    svc.modelLoaded && svc.labels == DefaultLabels && svc.minConfidence == 0.7
  }

  /**
   * One frame of the session example: while the window holds only votes for
   * class 0 with confidence 0.9 and is not full, another such vote is
   * appended and "A" is shown with 0.9.
   */
  method SessionStep(svc: ASLService, now: real)
    requires svc.Valid() && DefaultSettings(svc)
    requires |svc.smoother.predictions| < svc.smoother.windowSize
    requires forall i :: 0 <= i < |svc.smoother.predictions| ==> svc.smoother.predictions[i] == Prediction(0, 0.9)
    modifies svc, svc.smoother
    ensures svc.Valid() && DefaultSettings(svc)
    ensures svc.smoother.predictions == old(svc.smoother.predictions) + [Prediction(0, 0.9)]
    ensures svc.currentLabel == "A" && svc.currentConfidence == 0.9
    ensures svc.Counter() == Tick(old(svc.Counter()), "A", now)
  {
    ExampleGate(svc.smoother.predictions + [Prediction(0, 0.9)]);
    svc.Recognise(Some(Prediction(0, 0.9)));
    svc.CountLetter(now);
  }

  /**
   * Inputs that take the found-hand branch of `Predict` with the session
   * example's vote: the example hand on any 4 by 4 frame is cropped, and the
   * example output decodes to class 0 with confidence 0.9.
   */
  lemma ExampleFrameInputs<P>(frame: Frame<P>)
    requires frame.WellFormed() && frame.width == 4 && frame.Height() == 4
    ensures ExtractRoi(frame, [ExampleHand], DefaultConfig.padding).Roi?
    ensures TfliteInfer.ExampleOutput.WellFormed() && |[0.5, 0.5]| == |TfliteInfer.ExampleOutput.data|
    ensures Decodes(TfliteInfer.ExampleOutput, [0.5, 0.5])
    ensures Vote(TfliteInfer.Decode(TfliteInfer.ExampleOutput, [0.5, 0.5]).value) == Prediction(0, 0.9)
  {
    ExampleCrop(frame);
    TfliteInfer.ExampleDecode();
  }

  /** The letter counter across the two frames of the session example. */
  lemma ExampleTicks()
    ensures Tick(LetterCounter(0.0, 0, 0), "A", 0.5) == LetterCounter(0.0, 1, 0)
    ensures Tick(LetterCounter(0.0, 1, 0), "A", 1.0) == LetterCounter(1.0, 0, 2)
  {
    assert IsLetter("A");
  }

  /** A window of votes for class 0 with confidence 0.9 shows "A" under the default minimum. */
  lemma ExampleGate(s: seq<Prediction>)
    requires |s| > 0 && forall i :: 0 <= i < |s| ==> s[i] == Prediction(0, 0.9)
    ensures Gate(SmoothedPrediction(s), 0.7, DefaultLabels) == ("A", 0.9)
  {
    SingleClassWindow(s, 0, 0.9);
    DefaultLabelsShape();
  }

  /** Without a labels file the service uses the default table. */
  lemma LoadLabelsNone()
    ensures LoadLabels(None) == DefaultLabels
  {
  }
}
