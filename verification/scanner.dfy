/**
 One iteration of the measurement loop as a pure step function.

 The camera, the drawing calls and the window are gone: a frame is reduced to
 its size and the detector's result (no hand, or the 21 landmarks already in
 integer pixels), the clock reading and the key code are inputs, and the
 iteration's effect is an `Outcome`: go on with a new countdown state, save
 the frame (reporting the size category) and stop, or stop without saving.
 */
module Scanner {
  import opened Units
  import opened Geometry
  import opened Countdown

  /** Hand landmark indices used by the measurement. */
  const Wrist: nat := 0
  const IndexFingerMcp: nat := 5
  const MiddleFingerTip: nat := 12
  const PinkyMcp: nat := 17
  const LandmarkCount: nat := 21

  datatype Detection = NoHand | Hand(landmarks: seq<Point>)

  /** A camera read: failed, or a `width` by `height` frame and what the detector saw in it. */
  datatype Frame = ReadFailed | Frame(width: nat, height: nat, detection: Detection)

  /** Everything one iteration consumes: the frame, the clock reading (seconds) and the key code. */
  datatype Tick = Tick(frame: Frame, now: real, key: int)

  /** The detector reports all 21 landmarks of a hand it finds. */
  predicate WellFormed(f: Frame) {
    f.Frame? && f.detection.Hand? ==> |f.detection.landmarks| == LandmarkCount
  }

  // ---------------------------------------------------------------------
  // Frame classification
  // ---------------------------------------------------------------------

  function GuideBoxOf(f: Frame): Box
    requires f.Frame?
  {
    GuideBox(f.width, f.height)
  }

  /** `hand_centered`: a hand is detected and its landmarks pass the containment test. */
  function Centred(f: Frame): (centred: bool)
    requires WellFormed(f)
    ensures centred <==>
              && f.Frame? && f.detection.Hand?
              && forall i :: 0 <= i < |f.detection.landmarks| ==>
                   StrictlyInside(f.detection.landmarks[i], GuideBoxOf(f))
  {
    f.Frame? && f.detection.Hand? && IsHandInsideBox(f.detection.landmarks, GuideBoxOf(f))
  }

  /** A centred hand whose fingertip and wrist also pass the proximity gate. */
  function Close(f: Frame): (close: bool)
    requires WellFormed(f)
    ensures close <==>
              && Centred(f)
              && Abs(f.detection.landmarks[MiddleFingerTip].y - GuideBoxOf(f).y1) <= ProximityPx
              && Abs(GuideBoxOf(f).y2 - f.detection.landmarks[Wrist].y) <= ProximityPx
  {
    Centred(f)
    && var lms := f.detection.landmarks;
       IsProximate(lms[MiddleFingerTip], lms[Wrist], GuideBoxOf(f))
  }

  // ---------------------------------------------------------------------
  // Measurement
  // ---------------------------------------------------------------------

  /** `calculate_distance` between two landmarks in pixels. */
  function PixelDistance(root: real -> real, p: Point, q: Point): (d: real)
    requires IsSqrt(root)
    ensures 0.0 <= d
    ensures d * d == SquaredDistance(p.x, p.y, q.x, q.y) as real
  {
    Distance(root, p.x, p.y, q.x, q.y)
  }

  /** Converts a pixel length to inches and adds a calibration offset. */
  function PixelsToInches(px: real, adjustment: real): (inches: real)
    ensures 0.0 <= px ==> adjustment <= inches
  {
    CmToInches(PixelsToCm(px)) + adjustment
  }

  /** Removing the offset and scaling back by 2.54 and by 11.25 gives the pixel length again. */
  lemma PixelsToInchesInverse(px: real, adjustment: real)
    ensures (PixelsToInches(px, adjustment) - adjustment) * CmPerInch * PixelsPerCm == px
  {
    CmToInchesInverse(PixelsToCm(px));
    PixelsToCmInverse(px);
  }

  /**
   Width is measured index-finger base to pinky base, height wrist to middle
   fingertip; both are converted to inches and offset.
   */
  function Measure(lms: seq<Point>, root: real -> real): (m: Measurement)
    requires |lms| == LandmarkCount
    requires IsSqrt(root)
    ensures Plausible(m)
  {
    var widthPx := PixelDistance(root, lms[IndexFingerMcp], lms[PinkyMcp]);
    var heightPx := PixelDistance(root, lms[Wrist], lms[MiddleFingerTip]);
    Measurement(PixelsToInches(widthPx, WidthAdjustmentIn), PixelsToInches(heightPx, HeightAdjustmentIn))
  }

  /** The reported sizes convert back to the two landmark distances in pixels. */
  lemma MeasureInverse(lms: seq<Point>, root: real -> real)
    requires |lms| == LandmarkCount
    requires IsSqrt(root)
    ensures var m := Measure(lms, root);
            && (m.widthIn - WidthAdjustmentIn) * CmPerInch * PixelsPerCm
               == PixelDistance(root, lms[IndexFingerMcp], lms[PinkyMcp])
            && (m.heightIn - HeightAdjustmentIn) * CmPerInch * PixelsPerCm
               == PixelDistance(root, lms[Wrist], lms[MiddleFingerTip])
  {
    PixelsToInchesInverse(PixelDistance(root, lms[IndexFingerMcp], lms[PinkyMcp]), WidthAdjustmentIn);
    PixelsToInchesInverse(PixelDistance(root, lms[Wrist], lms[MiddleFingerTip]), HeightAdjustmentIn);
  }

  // ---------------------------------------------------------------------
  // The step
  // ---------------------------------------------------------------------

  /** Evaluates the guide box, the containment test, the measurement and the proximity gate. */
  function Classify(f: Frame, root: real -> real): (c: Sighting)
    requires WellFormed(f)
    requires IsSqrt(root)
    ensures c.NoFrame? <==> f.ReadFailed?
    ensures c.NoHandSeen? <==> f.Frame? && f.detection.NoHand?
    ensures c.InBox? <==> Centred(f)
    ensures c.InBox? ==> (c.close <==> Close(f)) && c.m == Measure(f.detection.landmarks, root)
    ensures PlausibleSighting(c)
  {
    match f
    case ReadFailed => NoFrame
    case Frame(w, h, detection) =>
      match detection
      case NoHand => NoHandSeen
      case Hand(lms) =>
        var box := GuideBox(w, h);
        if !IsHandInsideBox(lms, box) then OffCentre
        else InBox(Measure(lms, root), IsProximate(lms[MiddleFingerTip], lms[Wrist], box))
  }

  /** One iteration of the measurement loop. */
  function Step(s: State, t: Tick, root: real -> real): (o: Outcome)
    requires WellFormed(t.frame)
    requires IsSqrt(root)
    ensures t.frame.ReadFailed? ==> o.Stop?
    ensures o.Save? && o.how == Auto <==> Close(t.frame) && Expired(s, t.now)
    ensures o.Save? && o.how == Manual <==>
              Centred(t.frame) && !(Close(t.frame) && Expired(s, t.now)) && KeyByte(t.key) == KeyCapture
    ensures o.Stop? <==>
              t.frame.ReadFailed? || (!(Close(t.frame) && Expired(s, t.now)) && KeyByte(t.key) == KeyEsc)
    ensures o.Save? ==> Centred(t.frame) && o.size == Measure(t.frame.detection.landmarks, root)
    ensures o.Save? ==> Plausible(o.size)
    ensures o.Save? ==> o.category == WeightCategory(o.size.widthIn, o.size.heightIn) && 1 <= o.category
  {
    Transition(s, Classify(t.frame, root), t.now, t.key)
  }
}
