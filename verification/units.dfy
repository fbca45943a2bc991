/**
 Configuration constants and unit conversions of the hand scanner:
 pixel distances, pixels to centimetres, centimetres to inches and the
 coarse "weight category" (the ceiling of width times height).

 Floating point is modelled by Dafny's exact `real`; Python's `int()` on a
 float (truncation toward zero) and `math.ceil` are written out below.
 */
module Units {

  /** Physical width, in centimetres, that the guide box stands for. */
  const ReferenceCm: int := 20

  /** Requested side of the guide box, in pixels. */
  const BoxWidthPx: int := 225

  /** Pixels per centimetre, derived once from the two constants above. */
  const PixelsPerCm: real := BoxWidthPx as real / ReferenceCm as real

  /** A fingertip or wrist at most this far (in cm) from its box edge is "close". */
  const DistThresholdCm: real := 1.6

  /** Nominal length of the capture countdown, in seconds. */
  const CountdownSeconds: real := 2.0

  /** Calibration offsets added to the measured width and height, in inches. */
  const WidthAdjustmentIn: real := 0.70
  const HeightAdjustmentIn: real := 0.40

  /** Centimetres per inch. */
  const CmPerInch: real := 2.54

  lemma PixelsPerCmValue()
    ensures PixelsPerCm == 11.25
    ensures PixelsPerCm > 0.0
  {}

  // ---------------------------------------------------------------------
  // Python's int() and math.ceil on reals
  // ---------------------------------------------------------------------

  function Abs(n: int): (r: nat)
    ensures r == n || r == -n
  {
    if n < 0 then -n else n
  }

  /** Python's `int(x)` for a float: truncation toward zero. */
  function Trunc(x: real): (n: int)
    ensures 0.0 <= x ==> 0 <= n && n as real <= x < n as real + 1.0
    ensures x < 0.0 ==> n <= 0 && n as real - 1.0 < x <= n as real
  {
    if 0.0 <= x then x.Floor else -((-x).Floor)
  }

  /** Python's `math.ceil(x)`: the least integer not below `x`. */
  function Ceil(x: real): (n: int)
    ensures x <= n as real < x + 1.0
  {
    -((-x).Floor)
  }

  /** No integer below `Ceil(x)` is at least `x`: the ceiling is the least such integer. */
  lemma CeilLeast(x: real, n: int)
    requires x <= n as real
    ensures Ceil(x) <= n
  {
  }

  lemma CeilMonotone(x: real, y: real)
    requires x <= y
    ensures Ceil(x) <= Ceil(y)
  {
    CeilLeast(x, Ceil(y));
  }

  // ---------------------------------------------------------------------
  // calculate_distance
  // ---------------------------------------------------------------------

  /**
   The square root `math.hypot` relies on. Dafny's reals have no square root,
   so the operations that need one take it as a parameter satisfying this.
   The first conjunct follows from the second for a true square root; it is
   stated because the solver's nonlinear real arithmetic does not derive it.
   */
  ghost predicate IsSqrt(root: real -> real) {
    && root(0.0) == 0.0
    && forall x: real :: 0.0 <= x ==> 0.0 <= root(x) && root(x) * root(x) == x
  }

  /** Squared Euclidean distance between two pixel points. */
  function SquaredDistance(x1: int, y1: int, x2: int, y2: int): (d: nat)
  {
    (x2 - x1) * (x2 - x1) + (y2 - y1) * (y2 - y1)
  }

  /** `math.hypot(x2 - x1, y2 - y1)`: the Euclidean distance between two pixel points. */
  function Distance(root: real -> real, x1: int, y1: int, x2: int, y2: int): (d: real)
    requires IsSqrt(root)
    ensures 0.0 <= d
    ensures d * d == SquaredDistance(x1, y1, x2, y2) as real
  {
    root(SquaredDistance(x1, y1, x2, y2) as real)
  }

  lemma DistanceSymmetric(root: real -> real, x1: int, y1: int, x2: int, y2: int)
    requires IsSqrt(root)
    ensures Distance(root, x1, y1, x2, y2) == Distance(root, x2, y2, x1, y1)
  {
    assert (x2 - x1) * (x2 - x1) == (x1 - x2) * (x1 - x2);
    assert (y2 - y1) * (y2 - y1) == (y1 - y2) * (y1 - y2);
  }

  /** The distance is zero exactly when the two points coincide. */
  lemma DistanceZeroIff(root: real -> real, x1: int, y1: int, x2: int, y2: int)
    requires IsSqrt(root)
    ensures Distance(root, x1, y1, x2, y2) == 0.0 <==> x1 == x2 && y1 == y2
  {
    var d := Distance(root, x1, y1, x2, y2);
    var dx, dy := x2 - x1, y2 - y1;
    SquareNonNegative(dx);
    SquareNonNegative(dy);
    if dx != 0 || dy != 0 {
      assert 0 < SquaredDistance(x1, y1, x2, y2);
      assert d != 0.0;
    }
  }

  lemma SquareNonNegative(n: int)
    ensures 0 <= n * n
    ensures n != 0 ==> 0 < n * n
  {
    if n > 0 {
      assert n * n >= n;
    } else if n < 0 {
      assert n * n >= -n;
    }
  }

  // ---------------------------------------------------------------------
  // pixels_to_cm, cm_to_inches
  // ---------------------------------------------------------------------

  /** `pixels_to_cm(px, pixels_per_cm)`: scaling back by the ratio gives `px` again. */
  function PixelsToCmWith(px: real, pixelsPerCm: real): (cm: real)
    requires pixelsPerCm != 0.0
    ensures cm * pixelsPerCm == px
  {
    px / pixelsPerCm
  }

  /** `pixels_to_cm(px)` with the default ratio, the only one the scanner uses. */
  function PixelsToCm(px: real): (cm: real)
    ensures 0.0 <= px ==> 0.0 <= cm
  {
    PixelsToCmWith(px, PixelsPerCm)
  }

  /** Scaling back by the ratio gives the pixel length again. */
  lemma PixelsToCmInverse(px: real)
    ensures PixelsToCm(px) * PixelsPerCm == px
  {}

  lemma PixelsToCmLinear(k: real, px: real)
    ensures PixelsToCm(k * px) == k * PixelsToCm(px)
    ensures PixelsToCm(0.0) == 0.0
  {}

  lemma PixelsToCmExample()
    ensures PixelsToCm(112.5) == 10.0
  {}

  /** `cm_to_inches(cm)`. */
  function CmToInches(cm: real): (inches: real)
    ensures 0.0 <= cm ==> 0.0 <= inches
  {
    cm / CmPerInch
  }

  /** Multiplying back by 2.54 gives the length in centimetres again. */
  lemma CmToInchesInverse(cm: real)
    ensures CmToInches(cm) * CmPerInch == cm
  {}

  lemma CmToInchesStrictlyIncreasing(a: real, b: real)
    requires a < b
    ensures CmToInches(a) < CmToInches(b)
  {}

  lemma CmToInchesExamples()
    ensures CmToInches(2.54) == 1.0
    ensures 3.937 < CmToInches(10.0) < 3.938
  {}

  // ---------------------------------------------------------------------
  // find_weight_category
  // ---------------------------------------------------------------------

  /** `find_weight_category(w, h)`: the least integer not below the area `w * h`. */
  function WeightCategory(widthIn: real, heightIn: real): (c: int)
    ensures widthIn * heightIn <= c as real < widthIn * heightIn + 1.0
  {
    Ceil(widthIn * heightIn)
  }

  /** Any integer in `[w*h, w*h + 1)` is the category: the bounds above determine it. */
  lemma WeightCategoryUnique(widthIn: real, heightIn: real, n: int)
    requires widthIn * heightIn <= n as real < widthIn * heightIn + 1.0
    ensures WeightCategory(widthIn, heightIn) == n
  {
    CeilLeast(widthIn * heightIn, n);
  }

  lemma WeightCategoryMonotone(w: real, h: real, w': real, h': real)
    requires 0.0 <= w <= w'
    requires 0.0 <= h <= h'
    ensures WeightCategory(w, h) <= WeightCategory(w', h')
  {
    assert w * h <= w' * h;
    assert w' * h <= w' * h';
    CeilMonotone(w * h, w' * h');
  }

  lemma WeightCategoryExamples()
    ensures WeightCategory(3.0, 4.0) == 12
    ensures WeightCategory(3.1, 4.0) == 13
  {
    WeightCategoryUnique(3.0, 4.0, 12);
    WeightCategoryUnique(3.1, 4.0, 13);
  }
}
