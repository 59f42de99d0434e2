/**
 * The face overlay: for every detection result, the positioning hint shown while calibrating,
 * the rectangle drawn around each face, and the face-count label. Boxes arrive normalised to
 * the frame (centre and size as fractions of the frame's width and height); the frame's
 * dimensions are whole pixels. Arithmetic is over the reals.
 */
module FaceOverlay {
  import opened Wrappers
  import Decimal

  datatype BoundingBox = BoundingBox(xCenter: real, yCenter: real, width: real, height: real)

  /** The video element's intrinsic dimensions, in pixels. */
  datatype VideoElement = VideoElement(videoWidth: nat, videoHeight: nat)

  const MoveToCenter: string := "Move face to center"
  const MoveCloser: string := "Move closer"
  const MoveFarther: string := "Move farther"
  const FaceCentered: string := "Face centered"

  /** Fraction of the frame width used as the edge margin and as the "too small" bound. */
  const EdgeFraction: real := 0.15
  /** Fraction of the frame width above which a face is too large. */
  const TooLargeFraction: real := 0.6

  // ---------------------------------------------------------------------------------------
  // Calibration hint

  /**
   * The hint for one face. The box centre and width are taken to pixels; a centre within the
   * margin (15% of the frame WIDTH, on both axes) of any edge asks to re-centre, whatever the
   * width; otherwise a width under 15% of the frame asks to come closer, over 60% to move away.
   */
  function GetCalibrationFeedback(box: BoundingBox, video: VideoElement): (msg: string)
    ensures msg == MoveToCenter || msg == MoveCloser || msg == MoveFarther || msg == FaceCentered
  {
    var w := video.videoWidth as real;
    var h := video.videoHeight as real;
    var centerX := box.xCenter * w;
    var centerY := box.yCenter * h;
    var width := box.width * w;
    var margin := EdgeFraction * w;
    if centerX < margin || centerX > w - margin || centerY < margin || centerY > h - margin then
      MoveToCenter
    else if width < w * EdgeFraction then
      MoveCloser
    else if width > w * TooLargeFraction then
      MoveFarther
    else
      FaceCentered
  }

  /**
   * The same policy stated on the normalised box alone. `aspect` is width / height: the
   * vertical margin, which is 15% of the frame width, is `0.15 * aspect` of the frame height.
   */
  function NormalizedFeedback(box: BoundingBox, aspect: real): string
  {
    var vMargin := EdgeFraction * aspect;
    if box.xCenter < EdgeFraction || box.xCenter > 1.0 - EdgeFraction
       || box.yCenter < vMargin || box.yCenter > 1.0 - vMargin then
      MoveToCenter
    else if box.width < EdgeFraction then
      MoveCloser
    else if box.width > TooLargeFraction then
      MoveFarther
    else
      FaceCentered
  }

  lemma ScaledLess(a: real, b: real, k: real)
    requires k > 0.0
    ensures a * k < b * k <==> a < b
  {
    if a < b {
      assert (b - a) * k > 0.0;
    } else {
      assert (a - b) * k >= 0.0;
    }
  }

  /**
   * Along one axis of length `k` > 0, a centre at fraction `p` lies within the margin `m`
   * of an edge exactly when `p` lies within `f = m / k` of 0 or 1.
   */
  lemma EdgeTestScales(p: real, k: real, m: real, f: real)
    requires k > 0.0 && f * k == m
    ensures (p * k < m) == (p < f)
    ensures (p * k > k - m) == (p > 1.0 - f)
  {
    ScaledLess(p, f, k);
    ScaledLess(1.0 - f, p, k);
  }

  lemma MarginOverHeight(w: real, h: real)
    requires h > 0.0
    ensures (EdgeFraction * (w / h)) * h == EdgeFraction * w
  {
    assert (w / h) * h == w;
  }

  /**
   * On a frame with non-zero dimensions the hint depends only on the normalised box and the
   * frame's aspect ratio: it is the normalised policy above.
   */
  lemma FeedbackIsNormalized(box: BoundingBox, video: VideoElement)
    requires video.videoWidth > 0 && video.videoHeight > 0
    ensures GetCalibrationFeedback(box, video)
            == NormalizedFeedback(box, video.videoWidth as real / video.videoHeight as real)
  {
    var w := video.videoWidth as real;
    var h := video.videoHeight as real;
    MarginOverHeight(w, h);
    EdgeTestScales(box.xCenter, w, EdgeFraction * w, EdgeFraction);
    EdgeTestScales(box.yCenter, h, EdgeFraction * w, EdgeFraction * (w / h));
    ScaledLess(box.width, EdgeFraction, w);
    ScaledLess(TooLargeFraction, box.width, w);
  }

  /** A centre near an edge asks to re-centre whatever the box's size. */
  lemma EdgeOverridesSize(box: BoundingBox, video: VideoElement, width: real, height: real)
    requires GetCalibrationFeedback(box, video) == MoveToCenter
    ensures GetCalibrationFeedback(box.(width := width, height := height), video) == MoveToCenter
  {
  }

  /** Both size thresholds are strict: a face exactly at 15% or 60% of the width is centred. */
  lemma SizeThresholdsAreStrict(box: BoundingBox, video: VideoElement)
    requires video.videoWidth > 0 && video.videoHeight > 0
    requires GetCalibrationFeedback(box, video) != MoveToCenter
    requires box.width == EdgeFraction || box.width == TooLargeFraction
    ensures GetCalibrationFeedback(box, video) == FaceCentered
  {
  }

  /**
   * At 640x480 a centred face of width 0.3 is "Face centered": the margin is 96 px, the centre
   * is at (320, 240) px and the width is 192 px, between 96 and 384.
   */
  lemma CenteredAt640x480()
    ensures GetCalibrationFeedback(BoundingBox(0.5, 0.5, 0.3, 0.4), VideoElement(640, 480)) == FaceCentered
  {
  }

  /**
   * The vertical margin is measured in widths: at 640x480 a centre at 18% of the height
   * (86.4 px, under the 96 px margin) asks to re-centre, although 0.18 exceeds 0.15.
   */
  lemma VerticalMarginUsesWidth()
    ensures GetCalibrationFeedback(BoundingBox(0.5, 0.18, 0.3, 0.4), VideoElement(640, 480)) == MoveToCenter
  {
  }

  // ---------------------------------------------------------------------------------------
  // Markers

  /** An axis-aligned rectangle: top-left corner, then width and height, in canvas pixels. */
  datatype Rect = Rect(x: real, y: real, w: real, h: real)

  /** One `strokeRect` call with the stroke style and line width in force. */
  datatype Stroke = Stroke(style: string, lineWidth: nat, rect: Rect)

  const Lime: string := "lime"
  const Red: string := "red"
  const MarkerLineWidth: nat := 2

  /** The primary face (index 0) is drawn in lime, every other face in red. */
  function StrokeStyle(idx: nat): (style: string)
    ensures style == Lime <==> idx == 0
    ensures style == Red <==> idx != 0
  {
    if idx == 0 then Lime else Red
  }

  /** The pixel rectangle of a normalised box on a `w` x `h` canvas. */
  function MarkerRect(box: BoundingBox, w: real, h: real): (r: Rect)
    ensures r.x + r.w / 2.0 == box.xCenter * w && r.y + r.h / 2.0 == box.yCenter * h
    ensures r.w == box.width * w && r.h == box.height * h
  {
    Rect(box.xCenter * w - box.width * w / 2.0, box.yCenter * h - box.height * h / 2.0,
         box.width * w, box.height * h)
  }

  /** A box inside the unit square gives a rectangle inside the canvas. */
  lemma MarkerInsideCanvas(box: BoundingBox, w: real, h: real)
    requires w >= 0.0 && h >= 0.0 && box.width >= 0.0 && box.height >= 0.0
    requires 0.0 <= box.xCenter - box.width / 2.0 && box.xCenter + box.width / 2.0 <= 1.0
    requires 0.0 <= box.yCenter - box.height / 2.0 && box.yCenter + box.height / 2.0 <= 1.0
    ensures var r := MarkerRect(box, w, h);
      0.0 <= r.x && r.x + r.w <= w && 0.0 <= r.y && r.y + r.h <= h
  {
  }

  /** The stroke drawn for the detection at `idx`. */
  function Marker(box: BoundingBox, idx: nat, w: nat, h: nat): (s: Stroke)
    ensures s.style == Lime <==> idx == 0
    ensures s.lineWidth == MarkerLineWidth
    ensures s.rect.x + s.rect.w / 2.0 == box.xCenter * w as real && s.rect.y + s.rect.h / 2.0 == box.yCenter * h as real
    ensures s.rect.w == box.width * w as real && s.rect.h == box.height * h as real
  {
    Stroke(StrokeStyle(idx), MarkerLineWidth, MarkerRect(box, w as real, h as real))
  }

  /** `results.detections`, where an absent list draws nothing. */
  function Detected(detections: Option<seq<BoundingBox>>): (faces: seq<BoundingBox>)
    ensures detections.None? ==> faces == []
    ensures detections.Some? ==> faces == detections.value
  {
    detections.GetOr([])
  }

  // ---------------------------------------------------------------------------------------
  // Face-count label

  const NoFaceWarning: string := "Warning: No face detected!"
  const OneFace: string := "1 face detected"
  const FacesSuffix: string := " faces detected"

  /** The status line above the video for `n` detected faces. */
  function FaceCountLabel(n: nat): (text: string)
    ensures n == 0 <==> text == NoFaceWarning
    ensures n == 1 <==> text == OneFace
    ensures n > 1 ==> |text| > |FacesSuffix| && text[..|text| - |FacesSuffix|] == Decimal.NatToString(n)
    ensures n > 1 ==> text[|text| - |FacesSuffix|..] == FacesSuffix
  {
    if n == 0 then NoFaceWarning
    else if n == 1 then OneFace
    else
      var text := Decimal.NatToString(n) + FacesSuffix;
      assert text[|text| - 1] == 'd' && |text| > |OneFace|;
      assert text[..|text| - |FacesSuffix|] == Decimal.NatToString(n);
      text
  }

  /** Different face counts give different labels. */
  lemma FaceCountLabelInjective(m: nat, n: nat)
    requires FaceCountLabel(m) == FaceCountLabel(n)
    ensures m == n
  {
    if m > 1 && n > 1 {
      Decimal.NatToStringInjective(m, n);
    }
  }

  // ---------------------------------------------------------------------------------------
  // The component's state

  /** The face tracker's state and its overlay canvas. */
  class FaceTracker {
    var calibrating: bool
    var feedback: seq<string>
    var faces: seq<BoundingBox>
    var canvasWidth: nat
    var canvasHeight: nat
    /** What has been drawn on the canvas since it was last cleared, in drawing order. */
    var strokes: seq<Stroke>

    constructor ()
      ensures !calibrating && feedback == [] && faces == []
    {
      calibrating := false;
      feedback := [];
      faces := [];
      canvasWidth, canvasHeight := 0, 0;
      strokes := [];
    }

    /** The "Calibrate" button. */
    method ToggleCalibrating()
      modifies this`calibrating
      ensures calibrating == !old(calibrating)
    {
      calibrating := !calibrating;
    }

    /** The status label for the faces of the last drawn frame. */
    function StatusLabel(): (text: string)
      reads this
      ensures (text == NoFaceWarning) == (faces == [])
    {
      FaceCountLabel(|faces|)
    }

    /**
     * The detection callback. Without a 2-D context or a video element nothing changes.
     * Otherwise the canvas takes the video's size and is cleared, one marker is drawn per
     * detection in order, `faces` becomes the detected boxes and `feedback` the hint for each
     * of them while calibrating (and empty when not).
     */
    method DrawFaceMarker(detections: Option<seq<BoundingBox>>, hasContext: bool, videoRef: Option<VideoElement>)
      modifies this
      ensures !hasContext || videoRef.None? ==> unchanged(this)
      ensures calibrating == old(calibrating)
      ensures hasContext && videoRef.Some? ==>
        var video, boxes := videoRef.value, Detected(detections);
        && canvasWidth == video.videoWidth && canvasHeight == video.videoHeight
        && faces == boxes
        && |strokes| == |boxes|
        && (forall i :: 0 <= i < |boxes| ==> strokes[i] == Marker(boxes[i], i, canvasWidth, canvasHeight))
        && (calibrating ==> |feedback| == |boxes|)
        && (calibrating ==> forall i :: 0 <= i < |boxes| ==> feedback[i] == GetCalibrationFeedback(boxes[i], video))
        && (!calibrating ==> feedback == [])
    {
      if !hasContext || videoRef.None? {
        return;
      }
      var video := videoRef.value;
      canvasWidth := video.videoWidth;
      canvasHeight := video.videoHeight;
      strokes := [];

      var feedbackArr: seq<string> := [];
      var facesArr: seq<BoundingBox> := [];
      if detections.Some? {
        var boxes := detections.value;
        var idx := 0;
        while idx < |boxes|
          invariant 0 <= idx <= |boxes|
          invariant calibrating == old(calibrating)
          invariant canvasWidth == video.videoWidth && canvasHeight == video.videoHeight
          invariant facesArr == boxes[..idx]
          invariant |strokes| == idx
          invariant forall i :: 0 <= i < idx ==> strokes[i] == Marker(boxes[i], i, canvasWidth, canvasHeight)
          invariant calibrating ==> |feedbackArr| == idx
          invariant calibrating ==> forall i :: 0 <= i < idx ==> feedbackArr[i] == GetCalibrationFeedback(boxes[i], video)
          invariant !calibrating ==> feedbackArr == []
        {
          var box := boxes[idx];
          var style := StrokeStyle(idx);
          var rect := MarkerRect(box, canvasWidth as real, canvasHeight as real);
          strokes := strokes + [Stroke(style, MarkerLineWidth, rect)];
          if calibrating {
            feedbackArr := feedbackArr + [GetCalibrationFeedback(box, video)];
          }
          facesArr := facesArr + [box];
          idx := idx + 1;
        }
        assert facesArr == boxes;
      }
      feedback := feedbackArr;
      faces := facesArr;
    }
  }
}
