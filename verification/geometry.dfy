/**
 Integer pixel geometry of one frame: the guide box centred in the frame,
 the containment test a detected hand must pass, and the proximity gate
 that checks the fingertip and wrist against the box's top and bottom.
 */
module Geometry {
  import opened Units

  /** A landmark already converted to integer pixel coordinates. */
  datatype Point = Point(x: int, y: int)

  /** An axis-aligned box given by its top-left and bottom-right corners. */
  datatype Box = Box(x1: int, y1: int, x2: int, y2: int)

  /** Inner margin of the containment test: `int(225 * 0.05)`. */
  const Margin: int := Trunc(BoxWidthPx as real * 0.05)

  /** Largest pixel distance from a box edge that still counts as "close". */
  const ProximityPx: int := 18

  lemma MarginValue()
    ensures Margin == 11
  {}

  /** 1.6 cm at 11.25 px/cm is exactly 18 px. */
  lemma ProximityPxValue()
    ensures DistThresholdCm * PixelsPerCm == ProximityPx as real
  {}

  // ---------------------------------------------------------------------
  // Guide box
  // ---------------------------------------------------------------------

  /**
   The guide box for a `w` by `h` frame, built with floor division. Halving
   the odd side loses a pixel: the box is 224 px across, not 225.
   */
  function GuideBox(w: nat, h: nat): (b: Box)
    ensures b.x1 + b.x2 == 2 * (w / 2) && b.y1 + b.y2 == 2 * (h / 2)
    ensures b.x2 - b.x1 == BoxWidthPx - 1 && b.y2 - b.y1 == BoxWidthPx - 1
  {
    var half := BoxWidthPx / 2;
    Box(w / 2 - half, h / 2 - half, w / 2 + half, h / 2 + half)
  }

  // ---------------------------------------------------------------------
  // Containment
  // ---------------------------------------------------------------------

  function Min(s: seq<int>): (m: int)
    requires |s| > 0
    ensures m in s
    ensures forall i :: 0 <= i < |s| ==> m <= s[i]
  {
    if |s| == 1 then s[0]
    else
      var rest := Min(s[1..]);
      if s[0] <= rest then s[0] else rest
  }

  function Max(s: seq<int>): (m: int)
    requires |s| > 0
    ensures m in s
    ensures forall i :: 0 <= i < |s| ==> s[i] <= m
  {
    if |s| == 1 then s[0]
    else
      var rest := Max(s[1..]);
      if s[0] >= rest then s[0] else rest
  }

  function Xs(pts: seq<Point>): (xs: seq<int>)
    ensures |xs| == |pts|
  {
    seq(|pts|, i requires 0 <= i < |pts| => pts[i].x)
  }

  function Ys(pts: seq<Point>): (ys: seq<int>)
    ensures |ys| == |pts|
  {
    seq(|pts|, i requires 0 <= i < |pts| => pts[i].y)
  }

  /** `p` lies strictly inside `box` shrunk by `Margin` on every side. */
  predicate StrictlyInside(p: Point, box: Box) {
    && box.x1 + Margin < p.x < box.x2 - Margin
    && box.y1 + Margin < p.y < box.y2 - Margin
  }

  /**
   `is_hand_inside_box`: the extreme landmark coordinates are compared with
   the shrunk box. That is the same as every landmark lying strictly inside it.
   */
  function IsHandInsideBox(pts: seq<Point>, box: Box): (inside: bool)
    requires |pts| > 0
    ensures inside <==> forall i :: 0 <= i < |pts| ==> StrictlyInside(pts[i], box)
  {
    var xs, ys := Xs(pts), Ys(pts);
    assert forall i :: 0 <= i < |pts| ==> xs[i] == pts[i].x && ys[i] == pts[i].y;
    && Min(xs) > box.x1 + Margin && Max(xs) < box.x2 - Margin
    && Min(ys) > box.y1 + Margin && Max(ys) < box.y2 - Margin
  }

  /** A landmark on or beyond any edge of the guide box makes the hand not centred. */
  lemma TouchingIsNotInside(pts: seq<Point>, box: Box, k: nat)
    requires k < |pts|
    requires pts[k].x <= box.x1 || box.x2 <= pts[k].x || pts[k].y <= box.y1 || box.y2 <= pts[k].y
    ensures !IsHandInsideBox(pts, box)
  {
    assert !StrictlyInside(pts[k], box);
  }

  /** The bounding box of the landmarks. */
  function BoundingBox(pts: seq<Point>): (b: Box)
    requires |pts| > 0
    ensures forall i :: 0 <= i < |pts| ==> b.x1 <= pts[i].x <= b.x2 && b.y1 <= pts[i].y <= b.y2
    ensures exists i :: 0 <= i < |pts| && pts[i].x == b.x1
    ensures exists i :: 0 <= i < |pts| && pts[i].x == b.x2
    ensures exists i :: 0 <= i < |pts| && pts[i].y == b.y1
    ensures exists i :: 0 <= i < |pts| && pts[i].y == b.y2
  {
    var xs, ys := Xs(pts), Ys(pts);
    assert forall i :: 0 <= i < |pts| ==> xs[i] == pts[i].x && ys[i] == pts[i].y;
    Box(Min(xs), Min(ys), Max(xs), Max(ys))
  }

  /** Landmarks whose bounding box is exactly the guide box are not centred: the margin is strict. */
  lemma BoundingBoxEqualIsNotInside(pts: seq<Point>, box: Box)
    requires |pts| > 0
    requires BoundingBox(pts) == box
    ensures !IsHandInsideBox(pts, box)
  {
    var k :| 0 <= k < |pts| && pts[k].x == box.x1;
    TouchingIsNotInside(pts, box, k);
  }

  /** Dropping landmarks from a centred, non-empty set keeps it centred. */
  lemma SubsetStaysInside(pts: seq<Point>, sub: seq<Point>, box: Box)
    requires |pts| > 0 && |sub| > 0
    requires forall q :: q in sub ==> q in pts
    requires IsHandInsideBox(pts, box)
    ensures IsHandInsideBox(sub, box)
  {
    forall j | 0 <= j < |sub|
      ensures StrictlyInside(sub[j], box)
    {
      assert sub[j] in pts;
      var i :| 0 <= i < |pts| && pts[i] == sub[j];
    }
  }

  // ---------------------------------------------------------------------
  // Proximity gate
  // ---------------------------------------------------------------------

  /** Fingertip to box top, in centimetres. */
  function TopDistanceCm(tip: Point, box: Box): (cm: real)
    ensures 0.0 <= cm
    ensures cm * PixelsPerCm == Abs(tip.y - box.y1) as real
  {
    PixelsToCm(Abs(tip.y - box.y1) as real)
  }

  /** Wrist to box bottom, in centimetres. */
  function BottomDistanceCm(wrist: Point, box: Box): (cm: real)
    ensures 0.0 <= cm
    ensures cm * PixelsPerCm == Abs(box.y2 - wrist.y) as real
  {
    PixelsToCm(Abs(box.y2 - wrist.y) as real)
  }

  /**
   Both distances are within 1.6 cm. Stated in pixels: both vertical gaps are
   at most 18 px.
   */
  function IsProximate(tip: Point, wrist: Point, box: Box): (close: bool)
    ensures close <==> Abs(tip.y - box.y1) <= ProximityPx && Abs(box.y2 - wrist.y) <= ProximityPx
  {
    TopDistanceCm(tip, box) <= DistThresholdCm && BottomDistanceCm(wrist, box) <= DistThresholdCm
  }

  /**
   A centred hand that passes the gate has its fingertip 12 to 18 px below
   the box top and its wrist 12 to 18 px above the box bottom.
   */
  lemma ProximityBands(tip: Point, wrist: Point, box: Box)
    requires StrictlyInside(tip, box) && StrictlyInside(wrist, box)
    requires IsProximate(tip, wrist, box)
    ensures box.y1 + 12 <= tip.y <= box.y1 + 18
    ensures box.y2 - 18 <= wrist.y <= box.y2 - 12
  {
    MarginValue();
  }
}
