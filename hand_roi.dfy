/**
 * The box arithmetic of the hand region-of-interest extractor
 * (src/hand_roi.py, `HandROIExtractor.extract_roi`). The hand detector is
 * foreign: its answer, the list of detected hands with their normalised
 * landmarks, is an input. From the first hand the extractor scales the
 * landmarks to pixels, truncates their min/max to integers, pads each axis
 * by a ratio of its extent, clamps to the frame, crops, and rejects an empty
 * crop.
 */
module HandRoi {

  /** A landmark in normalised image coordinates (1.0 is the frame's width or height). */
  datatype Landmark = Landmark(x: real, y: real)

  /** A frame as rows of pixels; its height is the number of rows. */
  datatype Frame<P> = Frame(width: nat, rows: seq<seq<P>>)
  {
    function Height(): nat { |rows| }

    predicate WellFormed()
    {
      forall k :: 0 <= k < |rows| ==> |rows[k]| == width
    }
  }

  /** A box `(x_min, y_min, x_max, y_max)` in pixel coordinates of the frame. */
  datatype Box = Box(xMin: int, yMin: int, xMax: int, yMax: int)

  /** The extractor's answer: nothing, or the cropped pixels and their box. */
  datatype Roi<P> = NoRoi | Roi(crop: seq<seq<P>>, box: Box)

  /** The default padding ratio of the extractor (20% of the extent on each side). */
  const DefaultPaddingRatio: real := 0.2

  /** Python's `int(x)` on a float: truncation toward zero. */
  function Trunc(r: real): (t: int)
    ensures r >= 0.0 ==> 0 <= t && t as real <= r < t as real + 1.0
    ensures r < 0.0 ==> t <= 0 && t as real - 1.0 < r <= t as real
  {
    if r >= 0.0 then r.Floor else -((-r).Floor)
  }

  lemma TruncMonotone(a: real, b: real)
    requires a <= b
    ensures Trunc(a) <= Trunc(b)
  {
  }

  /** Python's `min` of a non-empty list. */
  function MinOf(xs: seq<real>): (m: real)
    requires |xs| > 0
    ensures m in xs
    ensures forall i :: 0 <= i < |xs| ==> m <= xs[i]
  {
    if |xs| == 1 then xs[0]
    else
      var rest := MinOf(xs[1..]);
      if xs[0] <= rest then xs[0] else rest
  }

  /** Python's `max` of a non-empty list. */
  function MaxOf(xs: seq<real>): (m: real)
    requires |xs| > 0
    ensures m in xs
    ensures forall i :: 0 <= i < |xs| ==> xs[i] <= m
  {
    if |xs| == 1 then xs[0]
    else
      var rest := MaxOf(xs[1..]);
      if rest <= xs[0] then xs[0] else rest
  }

  /** The landmarks' x coordinates scaled to pixels. */
  function PixelXs(hand: seq<Landmark>, w: nat): (xs: seq<real>)
    ensures |xs| == |hand|
    ensures forall i :: 0 <= i < |hand| ==> xs[i] == hand[i].x * w as real
  {
    seq(|hand|, i requires 0 <= i < |hand| => hand[i].x * w as real)
  }

  /** The landmarks' y coordinates scaled to pixels. */
  function PixelYs(hand: seq<Landmark>, h: nat): (ys: seq<real>)
    ensures |ys| == |hand|
    ensures forall i :: 0 <= i < |hand| ==> ys[i] == hand[i].y * h as real
  {
    seq(|hand|, i requires 0 <= i < |hand| => hand[i].y * h as real)
  }

  /**
   * The unpadded box: the truncated extremes of the scaled landmarks. Every
   * landmark's truncated pixel coordinate lies within it, and each side of
   * the box is the truncated pixel coordinate of some landmark, so no
   * smaller box contains them all.
   */
  function RawBox(hand: seq<Landmark>, w: nat, h: nat): (b: Box)
    requires |hand| > 0
    ensures b.xMin <= b.xMax && b.yMin <= b.yMax
    ensures forall i :: 0 <= i < |hand| ==>
              b.xMin <= Trunc(hand[i].x * w as real) <= b.xMax &&
              b.yMin <= Trunc(hand[i].y * h as real) <= b.yMax
    ensures exists i :: 0 <= i < |hand| && b.xMin == Trunc(hand[i].x * w as real)
    ensures exists i :: 0 <= i < |hand| && b.xMax == Trunc(hand[i].x * w as real)
    ensures exists i :: 0 <= i < |hand| && b.yMin == Trunc(hand[i].y * h as real)
    ensures exists i :: 0 <= i < |hand| && b.yMax == Trunc(hand[i].y * h as real)
  {
    var xs, ys := PixelXs(hand, w), PixelYs(hand, h);
    var b := Box(Trunc(MinOf(xs)), Trunc(MinOf(ys)), Trunc(MaxOf(xs)), Trunc(MaxOf(ys)));
    var xLo :| 0 <= xLo < |xs| && xs[xLo] == MinOf(xs);
    var xHi :| 0 <= xHi < |xs| && xs[xHi] == MaxOf(xs);
    var yLo :| 0 <= yLo < |ys| && ys[yLo] == MinOf(ys);
    var yHi :| 0 <= yHi < |ys| && ys[yHi] == MaxOf(ys);
    assert b.xMin == Trunc(hand[xLo].x * w as real) && b.xMax == Trunc(hand[xHi].x * w as real);
    assert b.yMin == Trunc(hand[yLo].y * h as real) && b.yMax == Trunc(hand[yHi].y * h as real);
    assert forall i :: 0 <= i < |hand| ==>
             b.xMin <= Trunc(xs[i]) <= b.xMax && b.yMin <= Trunc(ys[i]) <= b.yMax by {
      forall i | 0 <= i < |hand|
        ensures b.xMin <= Trunc(xs[i]) <= b.xMax && b.yMin <= Trunc(ys[i]) <= b.yMax
      {
        TruncMonotone(MinOf(xs), xs[i]);
        TruncMonotone(xs[i], MaxOf(xs));
        TruncMonotone(MinOf(ys), ys[i]);
        TruncMonotone(ys[i], MaxOf(ys));
      }
    }
    b
  }

  /** The padding of one axis, `int(extent * ratio)`: between 0 and the extent for a ratio in [0, 1]. */
  function Padding(extent: int, ratio: real): (p: int)
    ensures extent >= 0 && ratio >= 0.0 ==> 0 <= p
    ensures extent >= 0 && 0.0 <= ratio <= 1.0 ==> p <= extent
  {
    assert extent >= 0 && ratio >= 0.0 ==> extent as real * ratio >= 0.0;
    assert extent >= 0 && 0.0 <= ratio <= 1.0 ==> extent as real * ratio <= extent as real;
    Trunc(extent as real * ratio)
  }

  /**
   * The raw box padded per axis and clamped to the frame: the lower corner is
   * never negative and the upper corner never beyond the frame. The padded box
   * contains the raw box wherever the raw box lies inside the frame.
   */
  function ClampedBox(raw: Box, w: nat, h: nat, ratio: real): (b: Box)
    ensures 0 <= b.xMin && 0 <= b.yMin && b.xMax <= w && b.yMax <= h
    ensures raw.xMin <= raw.xMax && raw.yMin <= raw.yMax && ratio >= 0.0 ==>
              b.xMin <= Max(0, raw.xMin) && Min(w, raw.xMax) <= b.xMax &&
              b.yMin <= Max(0, raw.yMin) && Min(h, raw.yMax) <= b.yMax
  {
    var px := Padding(raw.xMax - raw.xMin, ratio);
    var py := Padding(raw.yMax - raw.yMin, ratio);
    Box(Max(0, raw.xMin - px), Max(0, raw.yMin - py), Min(w, raw.xMax + px), Min(h, raw.yMax + py))
  }

  function Max(a: int, b: int): int { if a >= b then a else b }

  function Min(a: int, b: int): int { if a <= b then a else b }

  /** The box the extractor computes for a hand, before the empty-crop check. */
  function HandBox(hand: seq<Landmark>, w: nat, h: nat, ratio: real): (b: Box)
    requires |hand| > 0
    ensures 0 <= b.xMin && 0 <= b.yMin && b.xMax <= w && b.yMax <= h
    ensures ratio >= 0.0 ==>
              forall i :: 0 <= i < |hand| ==>
                (0 <= Trunc(hand[i].x * w as real) <= w ==> b.xMin <= Trunc(hand[i].x * w as real) <= b.xMax) &&
                (0 <= Trunc(hand[i].y * h as real) <= h ==> b.yMin <= Trunc(hand[i].y * h as real) <= b.yMax)
  {
    ClampedBox(RawBox(hand, w, h), w, h, ratio)
  }

  /** The pixels of a box inside the frame, row by row. */
  function Crop<P>(frame: Frame<P>, b: Box): (c: seq<seq<P>>)
    requires frame.WellFormed()
    requires 0 <= b.xMin <= b.xMax <= frame.width && 0 <= b.yMin <= b.yMax <= frame.Height()
    ensures |c| == b.yMax - b.yMin
    ensures forall k :: 0 <= k < |c| ==> |c[k]| == b.xMax - b.xMin
    ensures forall k, j :: 0 <= k < |c| && 0 <= j < |c[k]| ==> c[k][j] == frame.rows[b.yMin + k][b.xMin + j]
  {
    seq(b.yMax - b.yMin, k requires 0 <= k < b.yMax - b.yMin => frame.rows[b.yMin + k][b.xMin..b.xMax])
  }

  /**
   * The region of interest of the first detected hand, with the empty-crop
   * check stated on the box: a crop is returned exactly when a hand was
   * detected and its clamped box has positive width and height; the crop is
   * then exactly the box's pixels of the frame.
   */
  function ExtractRoi<P>(frame: Frame<P>, hands: seq<seq<Landmark>>, ratio: real): (r: Roi<P>)
    requires frame.WellFormed()
    requires |hands| > 0 ==> |hands[0]| > 0
    ensures |hands| == 0 ==> r == NoRoi
    ensures |hands| > 0 ==>
              var b := HandBox(hands[0], frame.width, frame.Height(), ratio);
              (r.Roi? <==> b.xMin < b.xMax && b.yMin < b.yMax) &&
              (r.Roi? ==> r.box == b && r.crop == Crop(frame, b))
    ensures r.Roi? ==>
              0 <= r.box.xMin < r.box.xMax <= frame.width && 0 <= r.box.yMin < r.box.yMax <= frame.Height() &&
              |r.crop| == r.box.yMax - r.box.yMin > 0 &&
              forall k :: 0 <= k < |r.crop| ==> |r.crop[k]| == r.box.xMax - r.box.xMin > 0
  {
    if |hands| == 0 then NoRoi
    else
      var b := HandBox(hands[0], frame.width, frame.Height(), ratio);
      if b.xMin < b.xMax && b.yMin < b.yMax then Roi(Crop(frame, b), b) else NoRoi
  }

  // ----- The empty-crop check as written: numpy slicing of the clamped box -----

  /** Python's normalisation of a slice bound against a length: negative bounds count from the end. */
  function SliceBound(i: int, n: nat): (r: nat)
    ensures r <= n
    ensures 0 <= i <= n ==> r == i
    ensures i < 0 && 0 <= n + i ==> r == n + i
    ensures i > n ==> r == n
    ensures n + i < 0 ==> r == 0
  {
    if i < 0 then Max(0, n + i) else Min(n, i)
  }

  /** Python's `s[start:stop]`. */
  function PySlice<T>(s: seq<T>, start: int, stop: int): (r: seq<T>)
    ensures 0 <= start <= stop <= |s| ==> r == s[start..stop]
    ensures |r| <= |s|
    ensures |r| == Max(0, SliceBound(stop, |s|) - SliceBound(start, |s|))
    ensures forall k :: 0 <= k < |r| ==> r[k] == s[SliceBound(start, |s|) + k]
  {
    var a, b := SliceBound(start, |s|), SliceBound(stop, |s|);
    if a < b then s[a..b] else []
  }

  /** `frame[y_min:y_max, x_min:x_max]` with numpy's slice semantics. */
  function CropAsWritten<P>(frame: Frame<P>, b: Box): (c: seq<seq<P>>)
    ensures |c| <= frame.Height()
  {
    var rows := PySlice(frame.rows, b.yMin, b.yMax);
    seq(|rows|, k requires 0 <= k < |rows| => PySlice(rows[k], b.xMin, b.xMax))
  }

  /** `roi.size == 0` for a crop of a well-formed frame (all rows share one width). */
  predicate EmptyCrop<P>(c: seq<seq<P>>)
  {
    |c| == 0 || |c[0]| == 0
  }

  /**
   * `extract_roi` as written: the crop is taken with numpy slicing and only
   * its size is checked, so a box whose upper corner was clamped below zero
   * is not rejected.
   */
  function ExtractRoiAsWritten<P>(frame: Frame<P>, hands: seq<seq<Landmark>>, ratio: real): (r: Roi<P>)
    requires |hands| > 0 ==> |hands[0]| > 0
    ensures |hands| == 0 ==> r == NoRoi
    ensures r.Roi? ==> !EmptyCrop(r.crop) && r.box == HandBox(hands[0], frame.width, frame.Height(), ratio)
  {
    if |hands| == 0 then NoRoi
    else
      var b := HandBox(hands[0], frame.width, frame.Height(), ratio);
      var c := CropAsWritten(frame, b);
      if EmptyCrop(c) then NoRoi else Roi(c, b)
  }

  /** For a box inside the frame, numpy slicing takes exactly the box's pixels. */
  lemma CropAsWrittenInside<P>(frame: Frame<P>, b: Box)
    requires frame.WellFormed()
    requires 0 <= b.xMin <= b.xMax <= frame.width && 0 <= b.yMin <= b.yMax <= frame.Height()
    ensures CropAsWritten(frame, b) == Crop(frame, b)
  {
    var c, d := CropAsWritten(frame, b), Crop(frame, b);
    var rows := PySlice(frame.rows, b.yMin, b.yMax);
    assert rows == frame.rows[b.yMin..b.yMax];
    forall k | 0 <= k < |c|
      ensures c[k] == d[k]
    {
      assert rows[k] == frame.rows[b.yMin + k];
    }
  }

  /** With a non-negative upper corner, a box of zero width or height gives an empty numpy crop. */
  lemma CropAsWrittenEmpty<P>(frame: Frame<P>, b: Box)
    requires frame.WellFormed()
    requires 0 <= b.xMin && 0 <= b.yMin && 0 <= b.xMax <= frame.width && 0 <= b.yMax <= frame.Height()
    requires b.xMin >= b.xMax || b.yMin >= b.yMax
    ensures EmptyCrop(CropAsWritten(frame, b))
  {
    var c := CropAsWritten(frame, b);
    if |c| > 0 {
      var rows := PySlice(frame.rows, b.yMin, b.yMax);
      assert rows[0] in frame.rows;
      assert |c[0]| == 0;
    }
  }

  /** Whenever the clamped upper corner is not negative, the code as written and the corrected extractor agree. */
  lemma AsWrittenAgrees<P>(frame: Frame<P>, hands: seq<seq<Landmark>>, ratio: real)
    requires frame.WellFormed()
    requires |hands| > 0 ==> |hands[0]| > 0
    requires |hands| > 0 ==>
               var b := HandBox(hands[0], frame.width, frame.Height(), ratio);
               b.xMax >= 0 && b.yMax >= 0
    ensures ExtractRoiAsWritten(frame, hands, ratio) == ExtractRoi(frame, hands, ratio)
  {
    if |hands| > 0 {
      var b := HandBox(hands[0], frame.width, frame.Height(), ratio);
      if b.xMin < b.xMax && b.yMin < b.yMax {
        CropAsWrittenInside(frame, b);
      } else {
        CropAsWrittenEmpty(frame, b);
      }
    }
  }

  /** The hand of the counterexample below: both landmarks lie left of the frame. */
  const LeftOfFrame: seq<Landmark> := [Landmark(-0.3, 0.2), Landmark(-0.5, 0.6)]

  /**
   * On a 10 by 10 frame the landmarks of `LeftOfFrame` sit at pixels x = -3
   * and -5, y = 2 and 6; no padding is added and the clamped box is
   * (0, 2, -3, 6), whose upper x corner is below its lower one.
   */
  lemma LeftOfFrameBox()
    ensures HandBox(LeftOfFrame, 10, 10, DefaultPaddingRatio) == Box(0, 2, -3, 6)
  {
    LeftOfFrameRawBox();
    assert Padding(2, DefaultPaddingRatio) == 0 && Padding(4, DefaultPaddingRatio) == 0;
  }

  /** The unpadded box of `LeftOfFrame` on a 10 by 10 frame. */
  lemma LeftOfFrameRawBox()
    ensures RawBox(LeftOfFrame, 10, 10) == Box(-5, 2, -3, 6)
  {
    var xs, ys := PixelXs(LeftOfFrame, 10), PixelYs(LeftOfFrame, 10);
    assert xs == [-3.0, -5.0] && ys == [2.0, 6.0];
    assert MinOf(xs) == -5.0 && MaxOf(xs) == -3.0;
    assert MinOf(ys) == 2.0 && MaxOf(ys) == 6.0;
  }

  /**
   * The code as written accepts that inverted box: numpy reads the column
   * slice `0:-3` as 0..7 and returns a 4 by 7 crop of any 10 by 10 frame,
   * while the corrected extractor returns nothing.
   */
  lemma NegativeStopCounterexample<P>(frame: Frame<P>)
    requires frame.WellFormed() && frame.width == 10 && frame.Height() == 10
    ensures var r := ExtractRoiAsWritten(frame, [LeftOfFrame], DefaultPaddingRatio);
            && r.Roi?
            && r.box == Box(0, 2, -3, 6)
            && r.box.xMax < r.box.xMin
            && |r.crop| == 4 && |r.crop[0]| == 7
    ensures ExtractRoi(frame, [LeftOfFrame], DefaultPaddingRatio) == NoRoi
  {
    LeftOfFrameBox();
    LeftOfFrameCrop(frame);
    var b := HandBox(LeftOfFrame, frame.width, frame.Height(), DefaultPaddingRatio);
    assert b == Box(0, 2, -3, 6);
    assert !EmptyCrop(CropAsWritten(frame, b));
  }

  /** numpy's `frame[2:6, 0:-3]` of a 10 by 10 frame is 4 rows by 7 columns. */
  lemma LeftOfFrameCrop<P>(frame: Frame<P>)
    requires frame.WellFormed() && frame.width == 10 && frame.Height() == 10
    ensures var c := CropAsWritten(frame, Box(0, 2, -3, 6));
            |c| == 4 && |c[0]| == 7
  {
    var rows := PySlice(frame.rows, 2, 6);
    assert rows == frame.rows[2..6];
    assert |rows[0]| == 10;
    assert SliceBound(0, 10) == 0 && SliceBound(-3, 10) == 7;
    assert |PySlice(rows[0], 0, -3)| == 7;
  }

  /** A hand whose landmarks sit at pixels (1, 1) and (3, 3) of a 4 by 4 frame. */
  const ExampleHand: seq<Landmark> := [Landmark(0.25, 0.25), Landmark(0.75, 0.75)]

  /** The example hand yields a crop of any 4 by 4 frame under the default padding. */
  lemma ExampleCrop<P>(frame: Frame<P>)
    requires frame.WellFormed() && frame.width == 4 && frame.Height() == 4
    ensures ExtractRoi(frame, [ExampleHand], DefaultPaddingRatio).Roi?
  {
    ExampleBox();
  }

  /** The example hand gets the box (1, 1, 3, 3) on a 4 by 4 frame. */
  lemma ExampleBox()
    ensures HandBox(ExampleHand, 4, 4, 0.2) == Box(1, 1, 3, 3)
  {
    ExampleRawBox();
    assert Padding(2, 0.2) == 0;
  }

  /** The unpadded box of the example hand on a 4 by 4 frame. */
  lemma ExampleRawBox()
    ensures RawBox(ExampleHand, 4, 4) == Box(1, 1, 3, 3)
  {
    var xs, ys := PixelXs(ExampleHand, 4), PixelYs(ExampleHand, 4);
    assert xs == [1.0, 3.0] && ys == [1.0, 3.0];
    assert MinOf(xs) == 1.0 && MaxOf(xs) == 3.0;
    assert MinOf(ys) == 1.0 && MaxOf(ys) == 3.0;
  }
}
