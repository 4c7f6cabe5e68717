# ASL recognition pipeline: a Dafny model

This project models the deterministic core of an American Sign Language
recognition service and proves properties of it. A frame arrives as an
uploaded image. A hand detector finds the hand's landmarks, and the
extractor crops a padded box around them. A TFLite classifier scores the
crop. A majority-vote smoother stabilises the answers over the last few
frames. A confidence gate decides which label is shown, and a counter
reports letters per second. The front end letterboxes the video on its
stage.

One Dafny module per source file:

- `Labels` (`labels.dfy`) covers `src/labels.py`: the 29-entry default table, the bounds-checked lookup with its `"UNKNOWN"` fallback, and the line filter of a labels file.
- `Utils` (`utils.dfy`) covers `PredictionSmoother` in `backend/src/utils.py`. It is a class whose window is a `seq` field with a fixed maximum length. The vote-counting loop is proved against a specification of the majority vote.
- `HandRoi` (`hand_roi.dfy`) covers the box arithmetic of `extract_roi` in `src/hand_roi.py`: truncated min/max, per-axis padding, clamping, the crop and the empty-crop check.
- `TfliteInfer` (`tflite_infer.dfy`) covers the rules of `backend/src/tflite_infer.py`. That means the input-shape decoding, the batch and normalisation rules, output flattening, the softmax trigger and the first-index argmax.
- `WebApi` (`web_api.dfy`) covers `backend/src/web_api.py`. It holds the payload size check, point normalisation, the configuration clamps and the face-point stride filter. It also holds `ASLService` as a class whose `Predict` method is one step of the session.
- `VideoRect` (`video_rect.dfy`) covers `getVideoRect` of `frontend/src/lib/videoRect.ts`, over reals.
- `Wrappers` (`wrappers.dfy`) holds the `Option` and `Result` types.

Foreign calls are inputs of the model: MediaPipe's landmarks, the TFLite
interpreter's shape and output, OpenCV's decoded or resized image, the
softmax of the scores, and the clock.

## Model

| member | source | states |
|---|---|---|
| Labels.DefaultLabelsShape | src/labels.py:12-16 | the default table has 29 entries: `A`..`Z` in order, then `SPACE`, `DELETE`, `NOTHING`; `UNKNOWN` is not among them |
| Labels.GetLabel | src/labels.py:46-62 | with no table the default table is used; an index inside the table gives its entry, any index outside it, negative or too large, gives `UNKNOWN` |
| Labels.DefaultLookupUnknownIff | src/labels.py:57-62 | with the default table the answer is `UNKNOWN` exactly when the index is outside 0..28, and indices 0..25 give the letters |
| Labels.Strip | src/labels.py:32 | `str.strip()`: the result is no longer than the line, empty exactly when the line is all whitespace, and otherwise starts and ends with non-whitespace |
| Labels.StripInfix | src/labels.py:32 | the stripped line is a contiguous part of the line, and only whitespace lies before and after it |
| Labels.StripIdempotent | src/labels.py:32 | stripping a stripped line changes nothing |
| Labels.CleanLines | src/labels.py:32 | the filtered labels are never empty and already stripped; the list is empty exactly when every line is blank |
| Labels.CleanLinesAppend | src/labels.py:32 | the filter works line by line, so file order is kept: filtering a concatenation concatenates the filtered parts |
| Labels.CleanLinesFromLines | src/labels.py:32 | each loaded label is the stripped form of some line of the file |
| Labels.LoadLabels | src/labels.py:19-43 | with no file, or only blank lines, the result is the default table; otherwise it is the filtered lines; it is never empty and has no empty entry |
| Labels.LookupNeverEmpty | src/labels.py:29-62 | a lookup in loaded labels never yields the empty string |
| Utils.Push | backend/src/utils.py:48-58 | appending to a full window keeps its bound and drops the oldest entry: the result is the last `window_size` entries of the old window plus the new one |
| Utils.PushAllKeepsLastW | backend/src/utils.py:48-58 | after any number of appends the window is exactly the last `window_size` predictions added, in order |
| Utils.PredictionSmoother.constructor | backend/src/utils.py:42-48 | a new smoother has the given window size and an empty window |
| Utils.PredictionSmoother.AddPrediction | backend/src/utils.py:50-58 | the window becomes `Push` of the old window and the new pair, and stays within its bound |
| Utils.CountVotes | backend/src/utils.py:70-79 | the counting loop gives every class of the window its number of entries and the list of their confidences, with classes kept in order of first appearance |
| Utils.TallyComplete | backend/src/utils.py:74-79 | the dictionaries after the loop hold exactly the classes of the window, each with its true count and its confidences in window order |
| Utils.MaxByCount | backend/src/utils.py:85 | `max` over the dictionary items by count gives a key with the largest count, and no earlier key has as many |
| Utils.TableMaxIsMax | backend/src/utils.py:85 | the class chosen from the dictionary has at least as many votes as any class |
| Utils.TableMaxIsFirst | backend/src/utils.py:75-85 | every entry that comes before the chosen class's first appearance belongs to a class with strictly fewer votes |
| Utils.SmoothedPrediction | backend/src/utils.py:60-88 | an empty window gives `(None, 0.0)`; otherwise the class is the majority (it occurs, none is more frequent, ties go to the earliest first appearance) and the confidence is the mean of its own entries |
| Utils.WinnerIsMajority | backend/src/utils.py:74-85 | a non-empty window always has a majority class in that sense |
| Utils.MajorityUnique | backend/src/utils.py:75-85 | that majority class is unique, so the tie-break decides every tie |
| Utils.MeanWithinBounds | backend/src/utils.py:86 | the mean confidence lies between any bounds of the winning class's own confidences, whatever other classes hold |
| Utils.SingleClassWindow | backend/src/utils.py:74-88 | a window of identical votes answers that class with that confidence |
| Utils.PredictionSmoother.GetSmoothedPrediction | backend/src/utils.py:60-88 | the dictionary loop and `max` return exactly `SmoothedPrediction` of the window, and the window is not changed |
| Utils.PredictionSmoother.Reset | backend/src/utils.py:90-92 | the window is empty afterwards |
| Utils.MajorityExample | backend/src/utils.py:74-92 | with window 3, the votes (1, 0.9), (1, 0.8), (2, 0.99) give class 1 with 0.85; after a reset the answer is `(None, 0.0)` |
| HandRoi.Trunc | src/hand_roi.py:61-64 | `int()` of a float truncates toward zero: it never moves away from zero and stays within 1 of the value |
| HandRoi.MinOf | src/hand_roi.py:61-63 | `min` gives an element of the list that no element is below |
| HandRoi.MaxOf | src/hand_roi.py:62-64 | `max` gives an element of the list that no element exceeds |
| HandRoi.RawBox | src/hand_roi.py:57-64 | the raw box has `x_min <= x_max` and `y_min <= y_max`, every landmark's truncated pixel position lies inside it, and each corner is the truncated pixel coordinate of some landmark |
| HandRoi.Padding | src/hand_roi.py:67-70 | `int(extent * ratio)` is non-negative for a non-negative ratio and at most the extent for a ratio up to 1 |
| HandRoi.ClampedBox | src/hand_roi.py:67-75 | the padded box is clamped to `0 <= x_min`, `0 <= y_min`, `x_max <= w`, `y_max <= h`, and still contains the part of the raw box inside the frame |
| HandRoi.HandBox | src/hand_roi.py:53-75 | the box of the first hand has a non-negative lower corner and an upper corner at most the frame size (the box may be inverted); it contains every landmark whose truncated pixel position is inside the frame |
| HandRoi.Crop | src/hand_roi.py:78 | the crop of a box inside the frame has the box's height and width, and its pixel (k, j) is the frame's pixel (y_min + k, x_min + j) |
| HandRoi.ExtractRoi | src/hand_roi.py:34-83 | no hand gives nothing; otherwise a crop is returned exactly when the clamped box has positive width and height, and it is then exactly the box's pixels with `0 <= x_min < x_max <= w` and `0 <= y_min < y_max <= h` |
| HandRoi.SliceBound | src/hand_roi.py:78 | a Python slice bound is kept when inside the sequence; a negative bound counts from the end; a bound past the end becomes the length and one before the start becomes 0 |
| HandRoi.PySlice | src/hand_roi.py:78 | Python slicing takes the elements from the normalised start up to the normalised stop, and is empty when the stop is not after the start; it agrees with a plain slice for in-range bounds |
| HandRoi.CropAsWritten | src/hand_roi.py:78 | the numpy crop has at most as many rows as the frame |
| HandRoi.ExtractRoiAsWritten | src/hand_roi.py:72-83 | the code as written: no hand gives nothing, and a returned crop is non-empty and carries the clamped box |
| HandRoi.CropAsWrittenInside | src/hand_roi.py:78 | for a box inside the frame, numpy slicing takes exactly the box's pixels |
| HandRoi.CropAsWrittenEmpty | src/hand_roi.py:78-81 | a zero-width or zero-height box whose upper corner is not negative gives an empty numpy crop |
| HandRoi.AsWrittenAgrees | src/hand_roi.py:72-83 | when the clamped `x_max` and `y_max` are not negative, the code as written and `ExtractRoi` give the same answer |
| HandRoi.LeftOfFrameBox | src/hand_roi.py:57-75 | landmarks at x = -0.3 and -0.5 on a 10 by 10 frame give the clamped box (0, 2, -3, 6) |
| HandRoi.LeftOfFrameCrop | src/hand_roi.py:78 | numpy's `frame[2:6, 0:-3]` of a 10 by 10 frame is 4 rows by 7 columns |
| HandRoi.NegativeStopCounterexample | src/hand_roi.py:72-83 | the code as written returns a 4 by 7 crop with the inverted box (0, 2, -3, 6); `ExtractRoi` returns nothing |
| HandRoi.ExampleCrop | src/hand_roi.py:53-83 | landmarks at (0.25, 0.25) and (0.75, 0.75) give a crop of any 4 by 4 frame under the default padding |
| TfliteInfer.LoadModelSpec | backend/src/tflite_infer.py:66-80 | the shape is accepted exactly when its rank is 3 or 4; rank 4 takes height, width and channels from indices 1..3, rank 3 from 0..2; any other rank is an error naming the shape |
| TfliteInfer.LoadedDimensionsAreTrailing | backend/src/tflite_infer.py:66-76 | for either rank, height, width and channels are the last three dimensions, and the model is batched exactly at rank 4 |
| TfliteInfer.GetInputSize | backend/src/tflite_infer.py:171-173 | the size is reported width first, then height |
| TfliteInfer.InputSizeFromShape | backend/src/tflite_infer.py:171-173 | the reported size is the shape's width then its height, whatever the rank |
| TfliteInfer.Preprocess | backend/src/tflite_infer.py:108-123 | a batch dimension of 1 is added exactly when the input rank is 4; a uint8 model gets the pixel values unchanged; a float32 model or any other type gets them divided by 255 as float32 |
| TfliteInfer.PreprocessRange | backend/src/tflite_infer.py:115-123 | values given to a float model lie in [0, 1]; a uint8 model's lie in [0, 255] |
| TfliteInfer.Scores | backend/src/tflite_infer.py:152-156 | for an output whose scores are a flat list (rank 1, rank 2, a leading dimension other than 1, or row 0 holding one element per class, as in shape (1, N, 1)), the scores are the tensor's elements in row-major order |
| TfliteInfer.NeedsSoftmaxIff | backend/src/tflite_infer.py:161 | softmax runs exactly when some score lies outside [0, 1] |
| TfliteInfer.ArgMax | backend/src/tflite_infer.py:166 | `np.argmax` gives an index whose score no score exceeds, and every earlier score is strictly smaller |
| TfliteInfer.Decode | backend/src/tflite_infer.py:152-169 | an empty output fails as `EmptyOutput` whatever its shape; a non-empty output whose scores are not a flat list (rank 0, or leading dimension 1 at rank 3 or more with more than one value per entry of row 0) fails as `UnsupportedOutput` with the shape; otherwise the scores are the flattened output, or its softmax when the trigger fires; the class is the first maximal index and the confidence is the score there, at least every score |
| TfliteInfer.ColumnOutputDecodes | backend/src/tflite_infer.py:152-167 | a non-empty output of shape (1, N, 1) is well formed and decodes |
| TfliteInfer.DecodePassThrough | backend/src/tflite_infer.py:158-167 | scores already in [0, 1] pass through unchanged, so the confidence is a raw score in [0, 1] |
| TfliteInfer.ExampleDecode | backend/src/tflite_infer.py:152-169 | the output (0.9, 0.1) passes through without softmax and decodes to class 0 with confidence 0.9 |
| WebApi.Clamp01 | backend/src/web_api.py:87 | `max(0.0, min(1.0, v))` lies in [0, 1], keeps values already there, and maps values below to 0 and above to 1 |
| WebApi.ClampStride | backend/src/web_api.py:183 | the face stride lies in [2, 10], keeps values already there, and maps values below to 2 and above to 10 |
| WebApi.DecodeImageBytes | backend/src/web_api.py:41-48 | a payload longer than the limit is refused with 413 and its length; a payload of exactly the limit is accepted; an undecodable one is refused with 400; otherwise the decoded frame is returned |
| WebApi.OversizeIgnoresDecoder | backend/src/web_api.py:42-43 | an oversized payload gets 413 whatever the decoder would have answered |
| WebApi.NormPoint | backend/src/web_api.py:51-54 | a frame without area gives (0, 0); otherwise each coordinate is divided by the frame size and clamped into [0, 1] |
| WebApi.NormPointInFrame | backend/src/web_api.py:51-54 | a pixel position inside the frame is recovered exactly from its normalised point |
| WebApi.ScaledPoint | backend/src/web_api.py:209 | a landmark scaled by the frame size and normalised again is the landmark clamped into [0, 1] |
| WebApi.PosePoints | backend/src/web_api.py:207-209 | the pose points are every pose landmark, scaled and normalised, in order |
| WebApi.EveryNthGap | backend/src/web_api.py:213-215 | no landmark between two multiples of the stride is kept |
| WebApi.EveryNthSpec | backend/src/web_api.py:213-215 | from a multiple `a` of the stride, the filter keeps the landmarks at `a`, `a + s`, `a + 2s`, ... in order, and skips no multiple of the stride before the end of the list |
| WebApi.FacePoints | backend/src/web_api.py:210-215 | with the face requested and found, entry k is landmark `k * stride`, scaled and normalised, and every multiple of the stride below the landmark count is present; otherwise no points |
| WebApi.NewSegmentationService | backend/src/web_api.py:179-183 | the service's face stride is clamped into [2, 10], and its status is `loaded` |
| WebApi.SegmentationPredict | backend/src/web_api.py:201-221 | the answer holds the pose points, the strided face points and the service status; every point lies in the unit square |
| WebApi.RequestFrame | backend/src/web_api.py:235-246 | both routes refuse a payload above the configured `api_frame_max_size` with 413 and its length, refuse an undecodable one with 400, and hand on the decoded frame otherwise |
| WebApi.StartSegmentationService | backend/src/web_api.py:230 | the segmentation service's stride is the configured stride clamped into [2, 10] |
| WebApi.DefaultRoutes | backend/src/web_api.py:34-35 | with the defaults, payloads up to 900 KiB reach the decoder, larger ones get 413, and the face stride is 6 |
| WebApi.Gate | backend/src/web_api.py:139-149 | no smoothed class gives `No hand` with 0; a class reaching the minimum shows its label; below the minimum the label is `No hand` while the smoothed confidence is still reported |
| WebApi.GateShowsLetterIff | backend/src/web_api.py:140-155 | with the default table, the gate shows a counted letter exactly when a class reaches the minimum and is not `NOTHING` or out of range |
| WebApi.Tick | backend/src/web_api.py:154-160 | a letter is counted first; when a second or more has passed, the count becomes the rate, restarts at 0, and the emission time becomes `now`; otherwise the rate and emission time stay |
| WebApi.RunWithinSecond | backend/src/web_api.py:154-160 | within a second of the last emission no rate is emitted, and the count is the number of letter frames since then |
| WebApi.EmittedRate | backend/src/web_api.py:154-160 | the emitted rate is the number of letter frames since the previous emission, including the emitting frame |
| WebApi.LoadStatus | backend/src/web_api.py:99-114 | the status is `loaded` exactly when the model loaded; a missing model gives `model_missing` and a load failure gives `error` |
| WebApi.LoadModel | backend/src/web_api.py:99-114 | no model file gives `ModelMissing` with the download's reason; a wrapper failure gives a load error with its text; otherwise the model loads exactly when the wrapper accepts the input shape, and an unsupported shape is a load error with the wrapper's message |
| WebApi.UnsupportedRankIsError | backend/src/tflite_infer.py:66-76 | a present model whose input rank is neither 3 nor 4 leaves the service without a model, in status `error`, with the wrapper's message |
| WebApi.HandPoints | backend/src/web_api.py:130-135 | the returned landmarks are the first detected hand's raw coordinates, in order, or none |
| WebApi.ASLService.constructor | backend/src/web_api.py:81-97 | the minimum confidence is clamped into [0, 1]; labels come from the file or the default table; the smoother is fresh with the configured window; the state starts as `No hand`, 0, with zeroed counters |
| WebApi.ASLService.Predict | backend/src/web_api.py:116-171 | without a model, answers `Model unavailable` with 0 and changes nothing; otherwise a crop is classified by decoding the output tensor with `TfliteInfer.Decode`; a decode failure fails the step with the decoder's error and changes nothing; a decoded class and confidence are pushed into the window and the smoothed answer gated; no crop resets the window to `No hand` and 0; the counter ticks on the shown label, and the answer carries the label, confidence, rate, the first hand's landmarks, the crop's box and the model status |
| WebApi.ASLService.Recognise | backend/src/web_api.py:136-153 | a classifier vote for a found hand is pushed and the smoothed answer gated, and no vote resets the smoother to `No hand` and 0; the counter is untouched |
| WebApi.ASLService.CountLetter | backend/src/web_api.py:154-160 | the counter fields become `Tick` of the old counter on the shown label, and the label and confidence are untouched |
| WebApi.SessionExample | backend/src/web_api.py:136-160 | on the default service, two frames in which class 0 is voted with confidence 0.9, the second a second after start, both show `A` with 0.9, and the second emits a rate of 2 |
| WebApi.SessionStep | backend/src/web_api.py:136-160 | while the window holds only votes for class 0 with 0.9 and is not full, one more such vote is appended, `A` is shown with 0.9, and the counter ticks on `A` |
| WebApi.ExampleFrameInputs | backend/src/web_api.py:136-139 | the example hand on a 4 by 4 frame is cropped and the example output decodes to the session example's vote, class 0 with 0.9, so `Predict` takes its found-hand branch |
| VideoRect.GetVideoRect | frontend/src/lib/videoRect.ts:10-37 | a zero size gives the whole stage; otherwise the rectangle keeps the video's aspect ratio; in every case it is centred on the stage |
| VideoRect.FitWidth | frontend/src/lib/videoRect.ts:34-36 | scaling to the stage's width keeps the aspect ratio and centres vertically |
| VideoRect.FitHeight | frontend/src/lib/videoRect.ts:24-26 | scaling to the stage's height keeps the aspect ratio and centres horizontally |
| VideoRect.RatioComparison | frontend/src/lib/videoRect.ts:15-19 | for positive sizes, comparing the two ratios is comparing the cross products |
| VideoRect.ContainFitsInside | frontend/src/lib/videoRect.ts:18-27 | `contain` with positive sizes lies inside the stage and fills its width or its height |
| VideoRect.CoverCoversStage | frontend/src/lib/videoRect.ts:29-36 | `cover` with positive sizes covers the stage, with `x, y <= 0`, and matches its width or its height |

## Left out

- Hand, pose and face detection (MediaPipe), the TFLite interpreter's load, `set_tensor`, `invoke` and `get_tensor`, and OpenCV's `cvtColor`, `resize` and `imdecode` are foreign calls. Their answers are parameters: landmarks, the input shape and element type, the resized image, the output tensor, and the decoded frame.
- The `exp`-based softmax arithmetic is foreign arithmetic. `TfliteInfer.Decode` takes the softmax of the scores as a parameter and models only its trigger.
- `FPSCounter` and the `fps` field of the answer depend on the wall clock, so `AslResult` has no `fps`. The clock reading used by the letter counter is the parameter `now`.
- WebApi.ASLService.Predict: the confidence is not rounded to 4 decimals, because floating-point rounding is not modelled.
- Floats are modelled as reals. NaN, infinities and float32 rounding of the `/ 255.0` normalisation are not captured.
- The `threading.Lock` around `predict` and `close`, and `close` and `release` themselves, are left out. Each call is one sequential step.
- Model download via kagglehub, environment-variable parsing of `AppConfig`, and file existence and reading are I/O. The labels file arrives as `Option` of its lines; a missing or unreadable file is `None`. Whether a model file is present after the download, and the download's reason, are parameters of `WebApi.LoadModel`.
- The errors `TFLiteModel.__init__` raises before reading the input shape (TFLite not installed, model file missing, interpreter failure) are I/O or foreign. `WebApi.LoadModel` takes their text as the parameter `wrapperError`, and numpy's printing of the shape as `shapeText`.
- `src/app.py` (camera loop), the drawing helpers, the FastAPI routing (including the parsing of the `withFace` form field), `get_runtime_status`, `get_meta_info`, `backend/main.py` and the React front end apart from `getVideoRect` are outside this model. They are UI, routing and reporting.
- `backend/src/hand_roi.py` and `backend/src/labels.py`, which `web_api.py` imports, are not part of this model. The `src/` copies are modelled instead.
- The guard at backend/src/utils.py:82-83 is unreachable, so it has no branch in the model. `Utils.TallyComplete` shows that a non-empty window always yields a non-empty count.
- WebApi.ASLService.constructor: requires a non-negative smoothing window. `deque(maxlen=...)` raises for a negative one, and that error path is not modelled.
- HandRoi.ExtractRoi: requires the first hand to have at least one landmark. `min` of an empty list raises, and MediaPipe always reports 21 landmarks.
- TfliteInfer.Scores: requires an output whose scores are a flat list. `TfliteInfer.Decode` checks this and answers `UnsupportedOutput` otherwise. That covers rank 0, where the code's indexing raises, and a leading dimension 1 at rank 3 or more whose row 0 holds more than one value per entry, where `scores[class_index]` either indexes past row 0 (IndexError) or yields an array that `float()` rejects. An empty output fails earlier, at `np.max`, whatever its shape.
- WebApi.ASLService.Predict: uses the corrected extractor `HandRoi.ExtractRoi`. Where the code as written returns an inverted clamped box with a wrapped crop (see Findings), the step resets and shows `No hand` instead of classifying that crop and reporting the box.
- WebApi.ASLService.Predict: an exception raised while decoding the output becomes `Err(ClassifierFailed(...))` with the state unchanged. The HTTP 500 answer the route makes of it is not modelled.
- WebApi.SessionExample: runs each frame as the found-hand branch of `Predict`, namely `Recognise` with the vote and then `CountLetter`. It does not go through `Predict` with a frame and an output tensor; `WebApi.ExampleFrameInputs` shows that such inputs exist.
- Labels.Strip: whitespace is the set of code points for which Python's `str.isspace` holds. No decoding of the file's bytes is modelled.

## Findings

| source | as written | input that shows it | evidently intended | confidence | as-written member | corrected member |
|---|---|---|---|---|---|---|
| src/hand_roi.py:72-83 | the clamp `x_max = min(w, x_max + padding_x)` can leave `x_max` (or `y_max`) negative. numpy reads a negative slice stop as counting from the end, so `roi.size == 0` does not catch it. A non-empty crop is returned with a box whose `x_max < x_min`, and the crop's width is not the box's | a 10 by 10 frame, padding 0.2, one hand with landmarks (x, y) = (-0.3, 0.2) and (-0.5, 0.6): the box is (0, 2, -3, 6) and the crop is 4 rows by 7 columns | a hand box that is empty after clamping is rejected, and any returned box has `0 <= x_min < x_max <= w` and `0 <= y_min < y_max <= h` with the crop equal to its pixels | not executed; the input needs every landmark outside the frame on one side | HandRoi.NegativeStopCounterexample | HandRoi.ExtractRoi |
