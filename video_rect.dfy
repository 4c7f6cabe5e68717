/**
 * The letterboxing geometry of the front end (frontend/src/lib/videoRect.ts,
 * `getVideoRect`): where a video of a given size is drawn on a stage when it
 * is scaled to fit inside the stage (`contain`) or to cover it (`cover`).
 * Numbers are modelled as reals.
 */
module VideoRect {

  datatype FitMode = Contain | Cover

  datatype Rect = Rect(x: real, y: real, width: real, height: real)

  /** A size of zero on either side, stage or video, leaves nothing to fit. */
  predicate Degenerate(stageWidth: real, stageHeight: real, videoWidth: real, videoHeight: real)
  {
    stageWidth == 0.0 || stageHeight == 0.0 || videoWidth == 0.0 || videoHeight == 0.0
  }

  /**
   * The drawn rectangle: the whole stage when a size is zero; otherwise the
   * video scaled to the stage's width or height, whichever the fit mode and
   * the two aspect ratios call for, and centred. The rectangle always keeps
   * the video's aspect ratio and is centred on the stage.
   */
  function GetVideoRect(stageWidth: real, stageHeight: real, videoWidth: real, videoHeight: real, fit: FitMode): (r: Rect)
    ensures Degenerate(stageWidth, stageHeight, videoWidth, videoHeight) ==>
              r == Rect(0.0, 0.0, stageWidth, stageHeight)
    ensures !Degenerate(stageWidth, stageHeight, videoWidth, videoHeight) ==>
              r.width * videoHeight == r.height * videoWidth
    ensures 2.0 * r.x + r.width == stageWidth && 2.0 * r.y + r.height == stageHeight
  {
    if Degenerate(stageWidth, stageHeight, videoWidth, videoHeight) then Rect(0.0, 0.0, stageWidth, stageHeight)
    else
      var stageRatio := stageWidth / stageHeight;
      var videoRatio := videoWidth / videoHeight;
      if fit == Contain then
        if videoRatio > stageRatio then FitWidth(stageWidth, stageHeight, videoWidth, videoHeight)
        else FitHeight(stageWidth, stageHeight, videoWidth, videoHeight)
      else
        if videoRatio > stageRatio then FitHeight(stageWidth, stageHeight, videoWidth, videoHeight)
        else FitWidth(stageWidth, stageHeight, videoWidth, videoHeight)
  }

  /** The video scaled to the stage's width, centred vertically. */
  function FitWidth(stageWidth: real, stageHeight: real, videoWidth: real, videoHeight: real): (r: Rect)
    requires videoWidth != 0.0 && videoHeight != 0.0
    ensures r.x == 0.0 && r.width == stageWidth
    ensures r.width * videoHeight == r.height * videoWidth
    ensures 2.0 * r.y + r.height == stageHeight
  {
    var videoRatio := videoWidth / videoHeight;
    var height := stageWidth / videoRatio;
    assert height == stageWidth * videoHeight / videoWidth;
    Rect(0.0, (stageHeight - height) / 2.0, stageWidth, height)
  }

  /** The video scaled to the stage's height, centred horizontally. */
  function FitHeight(stageWidth: real, stageHeight: real, videoWidth: real, videoHeight: real): (r: Rect)
    requires videoWidth != 0.0 && videoHeight != 0.0
    ensures r.y == 0.0 && r.height == stageHeight
    ensures r.width * videoHeight == r.height * videoWidth
    ensures 2.0 * r.x + r.width == stageWidth
  {
    var videoRatio := videoWidth / videoHeight;
    var width := stageHeight * videoRatio;
    Rect((stageWidth - width) / 2.0, 0.0, width, stageHeight)
  }

  /** For positive sizes the aspect comparison of the two ratios, without division. */
  lemma RatioComparison(stageWidth: real, stageHeight: real, videoWidth: real, videoHeight: real)
    requires stageWidth > 0.0 && stageHeight > 0.0 && videoWidth > 0.0 && videoHeight > 0.0
    ensures (videoWidth / videoHeight > stageWidth / stageHeight) <==>
              (videoWidth * stageHeight > stageWidth * videoHeight)
  {
    var vr, sr := videoWidth / videoHeight, stageWidth / stageHeight;
    assert videoWidth == vr * videoHeight && stageWidth == sr * stageHeight;
    assert videoWidth * stageHeight == vr * videoHeight * stageHeight;
    assert stageWidth * videoHeight == sr * stageHeight * videoHeight;
  }

  /**
   * `contain` with positive sizes: the rectangle lies inside the stage and
   * touches it on one axis, filling the stage's width or height.
   */
  lemma ContainFitsInside(stageWidth: real, stageHeight: real, videoWidth: real, videoHeight: real)
    requires stageWidth > 0.0 && stageHeight > 0.0 && videoWidth > 0.0 && videoHeight > 0.0
    ensures var r := GetVideoRect(stageWidth, stageHeight, videoWidth, videoHeight, Contain);
            && 0.0 <= r.x && 0.0 <= r.y
            && r.width <= stageWidth && r.height <= stageHeight
            && (r.width == stageWidth || r.height == stageHeight)
  {
    RatioComparison(stageWidth, stageHeight, videoWidth, videoHeight);
    var r := GetVideoRect(stageWidth, stageHeight, videoWidth, videoHeight, Contain);
    if videoWidth * stageHeight > stageWidth * videoHeight {
      assert r.height * videoWidth == stageWidth * videoHeight;
      ScaleBelow(r.height, stageHeight, videoWidth);
    } else {
      assert r.width * videoHeight == stageHeight * videoWidth;
      ScaleBelow(r.width, stageWidth, videoHeight);
    }
  }

  /**
   * `cover` with positive sizes: the rectangle covers the stage, reaching
   * past it (or to its edge) on both sides of each axis.
   */
  lemma CoverCoversStage(stageWidth: real, stageHeight: real, videoWidth: real, videoHeight: real)
    requires stageWidth > 0.0 && stageHeight > 0.0 && videoWidth > 0.0 && videoHeight > 0.0
    ensures var r := GetVideoRect(stageWidth, stageHeight, videoWidth, videoHeight, Cover);
            && r.x <= 0.0 && r.y <= 0.0
            && r.width >= stageWidth && r.height >= stageHeight
            && (r.width == stageWidth || r.height == stageHeight)
  {
    RatioComparison(stageWidth, stageHeight, videoWidth, videoHeight);
    var r := GetVideoRect(stageWidth, stageHeight, videoWidth, videoHeight, Cover);
    if videoWidth * stageHeight > stageWidth * videoHeight {
      assert r.width * videoHeight == stageHeight * videoWidth;
      ScaleAbove(r.width, stageWidth, videoHeight);
    } else {
      assert r.height * videoWidth == stageWidth * videoHeight;
      ScaleAbove(r.height, stageHeight, videoWidth);
    }
  }

  /** Comparing products with the same positive factor compares the other factors. */
  lemma ScaleBelow(a: real, b: real, k: real)
    requires k > 0.0 && a * k <= b * k
    ensures a <= b
  {
  }

  lemma ScaleAbove(a: real, b: real, k: real)
    requires k > 0.0 && a * k >= b * k
    ensures a >= b
  {
  }
}
